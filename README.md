# ArcGIS forest classification tools — a verified Dafny model

The repository is a series of ArcGIS Pro script tools, in Python, that prepare Norwegian forest data
(SR16 forest resource maps, AR5 land cover, elevation statistics and locations) for classification.
Almost every call in them goes to the closed `arcpy` host. This project models the logic the tools
own beneath that host and proves what it promises. The host's answers are parameters: field-name
lists, an `Exists` predicate, row sequences keyed by OBJECTID, the layers and tables of the open map,
and the detected CPU and memory figures.

The modules follow the tools:

- `Capabilities` (capabilities.dfy): the CPU and memory probes with their fallbacks and clamps.
  - `_cpu_cores` and `_avail_mem_gb`.
  - `get_system_capabilities` with the 90% rule: toolboxes v0.2.1, v0.2.3 and v0.2.4, and
    `_get_system_capabilities` of the v0.2.3 validator.
  - The `(cores, total, available)` probe of toolboxes v0.1.3 and v0.1.4.
- `Labels` (labels.dfy): the three-tier thread and memory labels of the v0.1.12 and v0.2.5
  validators, which have the same text, and the "sticky selection" that carries a chosen tier
  across a refresh of the list.
- `Host` (host.dfy): a tool parameter (value, filter list, messages) as a class, and the
  output-layer dropdown filled from the active map.
- `ValidatorV0112`, `ValidatorV023`, `ValidatorV025`: the `ToolValidator` classes as classes whose
  methods update the parameters in place.
  - The v0.2.5 class is also the `ToolValidator` of `toolbox_0_2_1_BCK.py`.
  - The v0.2.3 class also stands for its copy under `src/agp_validation/`.
- `ImportFields` (import_fields.dfy): the 14-category, 57-field `IMPORT_FIELDS` catalog,
  `validate_import_fields`, `validate_import_fields_detailed` and `get_phase2_validation_info`.
- `JsonValue` and `CatalogReaders`: the parsed `IMPORT_FIELDS.json` document, and
  `get_required_input_datasets` and `get_dataset_field_mapping` with their KeyError, ValueError
  and AttributeError paths.
- `AutoDetect`: `auto_detect_input_layers` (the pattern rule, layers searched before tables) and
  `validate_auto_detected_layers` (the found/missing split and the 80% threshold).
- `LayerProcessing` and `Discovery`: the v0.2.3 data pipeline.
  - `get_field_info`, `read_sample_features` and `process_layer_basic`. These are identical in the
    v0.2.1, v0.2.3 and v0.2.4 toolboxes.
  - The 54 predefined dataset paths, `discover_datasets` and `process_discovered_datasets`.
- `Reconcile` (reconcile.dfy): the create/update/delete reconciliation of the output layer in
  `main` of toolbox v0.2.4. The output table is a class whose fields and rows the methods update.
- `PhaseOneOptions` (options_v0_1.dfy): the dropdown option builders of toolboxes v0.1.4 and v0.1.3.
- `Wrappers`, `Text`, `Seqs`: an Option/Result pair with the Python exceptions, decimal numerals,
  substring search, ASCII lower-casing, and an order-preserving filter with its lemmas.

Python's `int(n * p)` on a whole `n` is modelled as `n * P / 100` on naturals. For the factors
used here (0.3, 0.45, 0.6, 0.9, 0.25, 0.5, 0.75) the binary rounding error is smaller than the
distance to the next integer, so truncation gives the exact quotient. In the same way, the 80%
rate test `found / expected >= 0.80` is `5 * found >= 4 * expected`, and `AutoDetect.PassesIsRate`
proves the two agree over the rationals.

Two files are byte-for-byte copies of modelled files:
- `src/toolbox_0_2_3.py` of `src/execution/toolbox_0_2/toolbox_0_2_3.py`;
- `src/agp_validation/validation_toolbox_0_2_3.py` of `src/validation/toolbox_0_2/validation_toolbox_0_2_3.py`.

The table cites only the second file of each pair.

## Model

| member | source | states |
|---|---|---|
| Capabilities.DetectedCores | src/validation/toolbox_0_2/validation_toolbox_0_2_5.py:68-74 | `max(1, os.cpu_count() or 4)`, with 4 when the probe raises: always at least 1; a positive count is used as is, and None, 0 or an exception give 4 |
| Capabilities.DetectedMemoryGb | src/validation/toolbox_0_2/validation_toolbox_0_2_5.py:76-86 | always at least 2; whole GiB of available memory clamped below at 2; 8 when the probe raises |
| Capabilities.RoundGb | src/execution/toolbox_0_2/toolbox_0_2_3.py:47-51 | `round(total / 1024**3)` lies within half a GiB of the byte count |
| Capabilities.SystemCapabilities | src/execution/toolbox_0_2/toolbox_0_2_3.py:40-66 | with psutil: cpu_count is the logical CPU count, or 4 when that is None or 0; memory_gb is `round(total / 1024**3)`; max_threads and max_memory_gb are `max(1, int(0.9 * x))`, pinned by floor brackets, so 1 <= max_threads <= cpu_count and max_memory_gb <= memory_gb; without psutil, or when it raises, the fallback {4, 8, 3, 7} |
| Capabilities.CapabilitiesExample | src/execution/toolbox_0_2/toolbox_0_2_3.py:54-62 | 16 logical CPUs and 32 GiB give {16, 32, 14, 28} |
| Capabilities.HostResources | src/toolbox_0_1_4.py:29-43 | cores at least 1, with 4 when the count is missing or 0; memory figures are the byte counts divided by 1024**3; a probe that raises gives (4, 16.0, 8.0) |
| Labels.ModerateThreads | src/validation/toolbox_0_2/validation_toolbox_0_2_5.py:91 | the Moderate count is at least 2, is `max(2, floor(0.45 * cores))`, and is at most the cores from 5 cores up |
| Labels.HighThreads | src/validation/toolbox_0_2/validation_toolbox_0_2_5.py:92 | the High count is `max(3, floor(0.9 * cores))`, pinned by a floor bracket; at least 3, at most the cores from 3 cores up, and never below Moderate |
| Labels.ConservativeGb | src/validation/toolbox_0_2/validation_toolbox_0_2_5.py:101 | the 30% memory tier is `max(2, floor(0.3 * gb))`, pinned by a floor bracket; at most the available GB from 7 GB up |
| Labels.BalancedGb | src/validation/toolbox_0_2/validation_toolbox_0_2_5.py:102 | the 60% tier is `max(4, floor(0.6 * gb))`, pinned by a floor bracket; at most the available GB from 4 GB up, and not below the 30% tier |
| Labels.PerformanceGb | src/validation/toolbox_0_2/validation_toolbox_0_2_5.py:103 | the 90% tier is `max(6, floor(0.9 * gb))`, pinned by a floor bracket; at most the available GB from 6 GB up, and not below the 60% tier |
| Labels.Numerals | src/validation/toolbox_0_2/validation_toolbox_0_2_5.py:94-96 | the numerals the f-strings print for the pinned examples |
| Labels.ThreadLabelExamples | src/validation/toolbox_0_1/validation_toolbox_0_1_12.py:66-75 | 16 cores give 7 and 14 threads, 8 cores give 3 and 7, and the 16-core Moderate label is spelled out in full |
| Labels.MemoryLabelExamples | src/validation/toolbox_0_1/validation_toolbox_0_1_12.py:77-86 | 16 GB gives the tiers 4, 9 and 14 GB |
| Labels.MemoryLabelSpelled | src/validation/toolbox_0_1/validation_toolbox_0_1_12.py:85 | the 90% label for 16 GB is "14 GB (90% of 16.0 GB available)" |
| Labels.StickyStaysInRange | src/validation/toolbox_0_2/validation_toolbox_0_2_5.py:149-169 | after a refresh, the selection is either left unchanged or is an entry of the new list |
| Labels.StickyKeepsTier | src/validation/toolbox_0_2/validation_toolbox_0_2_5.py:149-191 | when each entry of the old and the new list contains exactly its own tier pattern, the i-th old entry maps to the i-th new entry |
| Labels.ThreadLabelsIdentify | src/validation/toolbox_0_2/validation_toolbox_0_2_5.py:88-97 | the thread labels for any core count contain "Auto", "Moderate" and "High" respectively, and no other tier's pattern |
| Labels.MemoryLabelPercent | src/validation/toolbox_0_2/validation_toolbox_0_2_5.py:105-107 | a memory label contains a three-character percentage pattern exactly when it is its own tier's |
| Labels.MemoryLabelsIdentify | src/validation/toolbox_0_2/validation_toolbox_0_2_5.py:99-108 | the memory labels for any GB figure contain "30%", "60%" and "90%" respectively, and no other tier's pattern |
| Labels.ThreadSelectionFollowsTier | src/validation/toolbox_0_2/validation_toolbox_0_2_5.py:145-169 | whatever the core counts before and after, a selected thread tier stays on the same tier of the refreshed list |
| Labels.MemorySelectionFollowsTier | src/validation/toolbox_0_2/validation_toolbox_0_2_5.py:146-191 | whatever the GB figures before and after, a selected memory tier stays on the same tier of the refreshed list |
| Host.Parameter.constructor | src/validation/toolbox_0_2/validation_toolbox_0_2_5.py:59-61 | a parameter starts with the given value, filter and altered flag, and with no warning or error |
| Host.FeatureLayerNames | src/validation/toolbox_0_2/validation_toolbox_0_2_5.py:126-130 | no more names than layers |
| Host.FeatureLayerNamesExact | src/validation/toolbox_0_2/validation_toolbox_0_2_5.py:126-130 | a name is listed exactly when some layer of the map with that name is a feature layer |
| Host.PopulateOutputLayer | src/validation/toolbox_0_2/validation_toolbox_0_2_5.py:119-136 | with an active map that has feature layers, the filter becomes their names and an empty value becomes the first name; otherwise filter and value are unchanged |
| Host.RefreshOutputLayer | src/validation/toolbox_0_2/validation_toolbox_0_2_5.py:193-205 | with an active map the filter becomes its feature-layer names, even when that list is empty; without one it is unchanged |
| ValidatorV0112.ToolValidator.constructor | src/validation/toolbox_0_1/validation_toolbox_0_1_12.py:46-49 | the validator holds the output, thread and memory parameters |
| ValidatorV0112.ToolValidator.InitializeParameters | src/validation/toolbox_0_1/validation_toolbox_0_1_12.py:89-113 | thread and memory lists are the labels for the probed figures, and both values are entry 1 of their list; the output layer as in `Host.PopulateOutputLayer` |
| ValidatorV0112.ToolValidator.UpdateParameters | src/validation/toolbox_0_1/validation_toolbox_0_1_12.py:115-131 | only the three filter lists are reassigned, and no value changes; the thread and memory lists are those of initialisation for the same probes |
| ValidatorV0112.InitializeThenUpdate | src/validation/toolbox_0_1/validation_toolbox_0_1_12.py:89-131 | after initialisation and a refresh with the same probes, both selections are still entry 1 of their lists and members of them |
| ValidatorV023.TierCount | src/validation/toolbox_0_2/validation_toolbox_0_2_3.py:231 | a percentage thread count is `max(1, floor(n * percent / 100))`, pinned by a floor bracket; at least 1, and at most the cores for percentages up to 100 |
| ValidatorV023.TierCountMonotone | src/validation/toolbox_0_2/validation_toolbox_0_2_3.py:230-233 | a larger percentage never gives fewer threads, so the 30/45/60/90 tiers are non-decreasing |
| ValidatorV023.TierLabels | src/validation/toolbox_0_2/validation_toolbox_0_2_3.py:230-233 | one label per percentage, in percentage order |
| ValidatorV023.AppendTierLabels | src/validation/toolbox_0_2/validation_toolbox_0_2_3.py:230-233 | the loop appends exactly the four tier labels to the list |
| ValidatorV023.ThreadOptionsShape | src/validation/toolbox_0_2/validation_toolbox_0_2_3.py:223-246 | exactly 8 options: "Auto (Recommended)", the four percentage tiers in order, "Single Thread", the half-cores entry ("2 Threads" for 2 cores or fewer), then "All Cores" |
| ValidatorV023.GetThreadOptions | src/validation/toolbox_0_2/validation_toolbox_0_2_3.py:214-246 | the list built by the loop is the thread options for `cpu_count`, which defaults to 4 |
| ValidatorV023.EmptyCapsAreFourCpus | src/validation/toolbox_0_2/validation_toolbox_0_2_3.py:214-271 | an empty capabilities dict reads as 4 CPUs and 8 GB, and its thread list starts with "Auto (Recommended)" |
| ValidatorV023.SizeLabels | src/validation/toolbox_0_2/validation_toolbox_0_2_3.py:286 | one "N GB" label per size, in order |
| ValidatorV023.SizesUpTo | src/validation/toolbox_0_2/validation_toolbox_0_2_3.py:283-286 | a size is kept exactly when it is one of the sizes and at most the memory |
| ValidatorV023.SizesUpToAscending | src/validation/toolbox_0_2/validation_toolbox_0_2_3.py:283-286 | the kept sizes stay in ascending order |
| ValidatorV023.MemoryOptionsShape | src/validation/toolbox_0_2/validation_toolbox_0_2_3.py:270-288 | "Auto (Recommended)", the four percentage tiers, then "N GB" for each common size up to the memory; length is 5 plus the number of such sizes |
| ValidatorV023.CommonSizesOffered | src/validation/toolbox_0_2/validation_toolbox_0_2_3.py:283-286 | exactly the sizes among 2, 4, 8, 16 and 32 GB that fit in memory are offered, ascending |
| ValidatorV023.AppendSizeLabels | src/validation/toolbox_0_2/validation_toolbox_0_2_3.py:283-286 | the loop appends exactly the labels of the sizes that fit |
| ValidatorV023.GetMemoryOptions | src/validation/toolbox_0_2/validation_toolbox_0_2_3.py:261-288 | the list built by the loops is the memory options for `memory_gb`, which defaults to 8 |
| ValidatorV023.AutoIsOffered | src/validation/toolbox_0_2/validation_toolbox_0_2_3.py:43-99 | "Auto (Recommended)" is an entry of the thread and memory lists for any capabilities, and of both fallback lists |
| ValidatorV023.LastSepEnd | src/validation/toolbox_0_2/validation_toolbox_0_2_3.py:142 | the position just past the last path separator; no separator follows it |
| ValidatorV023.RStripSeps | src/validation/toolbox_0_2/validation_toolbox_0_2_3.py:142 | a prefix of the path that does not end in a separator; all that was removed are separators |
| ValidatorV023.Dirname | src/validation/toolbox_0_2/validation_toolbox_0_2_3.py:142 | `os.path.dirname` is the head of the path up to its last separator with the trailing separators removed, unless the head is all separators: a prefix of the head, followed in the head only by separators, and ending in a non-separator when the head has one |
| ValidatorV023.DirnameExamples | src/validation/toolbox_0_2/validation_toolbox_0_2_3.py:142 | "a/b" gives "a", "a//b" gives "a", "/x" gives "/" and a plain "x" gives "" |
| ValidatorV023.ToolValidator.constructor | src/validation/toolbox_0_2/validation_toolbox_0_2_3.py:34-36 | the validator holds the output, thread and memory parameters |
| ValidatorV023.ToolValidator.InitializeParameters | src/validation/toolbox_0_2/validation_toolbox_0_2_3.py:38-99 | a parameter with a filter gets the options for the probed capabilities, or the fixed fallback list when the host raises, and the value "Auto (Recommended)", which is on that list; one without a filter is untouched |
| ValidatorV023.ToolValidator.UpdateMessages | src/validation/toolbox_0_2/validation_toolbox_0_2_3.py:121-173 | an altered, empty output gets the "required" error; an altered output whose non-empty directory does not exist gets the warning; an empty thread or memory value gets its own error; nothing else changes |
| ValidatorV023.InitializeSelectsListed | src/validation/toolbox_0_2/validation_toolbox_0_2_3.py:38-166 | after initialisation each filtered dropdown's value is a member of its list, so the later message pass sets no error on it |
| ValidatorV025.ToolValidator.constructor | src/validation/toolbox_0_2/validation_toolbox_0_2_5.py:56-66 | both caches start empty |
| ValidatorV025.ToolValidator.CpuCores | src/validation/toolbox_0_2/validation_toolbox_0_2_5.py:68-74 | returns the cached count if there is one, else probes and caches; the result is at least 1 and is then cached |
| ValidatorV025.ToolValidator.AvailMemGb | src/validation/toolbox_0_2/validation_toolbox_0_2_5.py:76-86 | returns the cached GB figure if there is one, else probes and caches; the result is at least 2 and is then cached |
| ValidatorV025.ToolValidator.InitializeParameters | src/validation/toolbox_0_2/validation_toolbox_0_2_5.py:111-137 | thread list from the cached cores with value entry 0 (Auto); memory list from the cached GB with value entry 1; output layer as in `Host.PopulateOutputLayer` |
| ValidatorV025.ToolValidator.UpdateParameters | src/validation/toolbox_0_2/validation_toolbox_0_2_5.py:139-206 | both lists are rebuilt from the caches, and each value is re-mapped by the sticky rule; the output filter is refreshed from the active map |
| ValidatorV025.ToolValidator.UpdateMessages | src/validation/toolbox_0_2/validation_toolbox_0_2_5.py:208-226 | the output parameter gets the naming warning exactly when its value is non-empty and its lower-case form has none of "validated", "checked", "import"; nothing else changes |
| ValidatorV025.ImportNameAccepted | src/validation/toolbox_0_2/validation_toolbox_0_2_5.py:214-220 | a name containing "IMPORT" in any case draws no warning |
| ValidatorV025.PlainNameWarned | src/validation/toolbox_0_2/validation_toolbox_0_2_5.py:214-223 | a plain name draws the warning; an empty one does not |
| ValidatorV025.RefreshesAgree | src/validation/toolbox_0_2/validation_toolbox_0_2_5.py:63-86 | once the figures are cached, later probes are ignored: lists built after three rounds of probing equal those from the first probes |
| ImportFields.AllFieldsSnoc | src/validation/toolbox_0_2/validation_toolbox_0_2_5.py:369-370 | the flattened field list grows by a category's fields in order |
| ImportFields.CatalogSize | src/validation/toolbox_0_2/validation_toolbox_0_2_5.py:277-363 | the catalog has 14 categories and 57 fields |
| ImportFields.AllFieldsHas | src/validation/toolbox_0_2/validation_toolbox_0_2_5.py:369-370 | every field of a category is in the flattened list |
| ImportFields.CriticalFieldsCatalogued | src/validation/toolbox_0_2/validation_toolbox_0_2_5.py:444 | the four critical fields are catalog fields |
| ImportFields.ValidateImportFields | src/execution/toolbox_0_2/toolbox_0_2_1_BCK.py:367-385 | total 57 and nothing found; passes exactly for a non-empty list, counting its layers with no missing fields; otherwise 0 layers and all 14 category names missing |
| ImportFields.FoundIgnoringCase | src/validation/toolbox_0_2/validation_toolbox_0_2_5.py:420-434 | a catalog field counts as present exactly when the layer has a field with the same name up to letter case; a layer that does not exist or cannot be listed has no fields present |
| ImportFields.TallyFields | src/validation/toolbox_0_2/validation_toolbox_0_2_5.py:432-438 | the inner loop counts the fields present and appends the others to the missing list in order |
| ImportFields.TallyStep | src/validation/toolbox_0_2/validation_toolbox_0_2_5.py:431-441 | processing one more category adds its present count, its missing fields, and the category itself when it had a hit |
| ImportFields.TallyCategories | src/validation/toolbox_0_2/validation_toolbox_0_2_5.py:431-441 | found = number of catalog fields present; missing = the absent ones in catalog order; categories_validated = categories with at least one hit |
| ImportFields.SplitByPresence | src/validation/toolbox_0_2/validation_toolbox_0_2_5.py:444-449 | the critical names are split into found and missing, both in order |
| ImportFields.ValidateImportFieldsDetailed | src/validation/toolbox_0_2/validation_toolbox_0_2_5.py:387-467 | None raises "No output layer…"; otherwise it succeeds exactly when at least 2 critical fields are found, else raises naming the missing ones joined by ", "; on success found + missing = 57 and the critical lists partition the four names |
| ImportFields.CriticalSplit | src/validation/toolbox_0_2/validation_toolbox_0_2_5.py:444-449 | found and missing critical fields together are the four names as a multiset |
| ImportFields.AllPresent | src/validation/toolbox_0_2/validation_toolbox_0_2_5.py:433-438 | when every name is present, all are found and none missing |
| ImportFields.CompleteLayerPasses | src/validation/toolbox_0_2/validation_toolbox_0_2_5.py:431-456 | a layer with every catalog field finds all 57 fields, misses none, and finds all four critical fields |
| ImportFields.GetPhase2ValidationInfo | src/validation/toolbox_0_2/validation_toolbox_0_2_5.py:470-479 | the 14 category names in catalog order, 57 fields, and four critical fields that are all catalog fields |
| JsonValue.Lookup | src/execution/toolbox_0_2/toolbox_0_2_1_BCK.py:534-542 | a key is found exactly when some entry has it, and the value found is one of its entries |
| JsonValue.LookupEntry | src/execution/toolbox_0_2/toolbox_0_2_1_BCK.py:583 | in an object with distinct keys, each entry is what its key looks up |
| JsonValue.MembershipGuardsIndex | src/execution/toolbox_0_2/toolbox_0_2_1_BCK.py:534-542 | `key in d` guards `d[key]`: indexing succeeds exactly on a dict for which `in` is True, and then `.get` returns the same value; where `in` is False, `.get` gives the default and indexing raises KeyError |
| JsonValue.Get | src/execution/toolbox_0_2/toolbox_0_2_1_BCK.py:586-595 | `d.get(key, default)`: the default for an absent key; AttributeError on a non-dict |
| JsonValue.KeysAreLookups | src/execution/toolbox_0_2/toolbox_0_2_1_BCK.py:599 | `list(d.keys())` lists exactly the keys that look something up, and none twice in a parsed dict |
| CatalogReaders.GetRequiredInputDatasets | src/execution/toolbox_0_2/toolbox_0_2_1_BCK.py:532-547 | returns the list unchanged exactly when it is a non-empty list; KeyError when "summary" or "input_datasets_required" is absent; ValueError for any other value |
| CatalogReaders.NewDatasetInfo | src/execution/toolbox_0_2/toolbox_0_2_1_BCK.py:585-591 | the entry copies description, type, field_count and categories, with defaults ""/""/0/[], and no fields; AttributeError when the info is not a dict |
| CatalogReaders.AddCategory | src/execution/toolbox_0_2/toolbox_0_2_1_BCK.py:594-600 | a category naming an unknown dataset changes nothing; one naming a known dataset without "fields" raises KeyError; a non-dict raises AttributeError |
| CatalogReaders.BaseMappingShape | src/execution/toolbox_0_2/toolbox_0_2_1_BCK.py:583-591 | the mapping's keys are exactly the input_datasets keys, each with the entry built from its info |
| CatalogReaders.AddCategoriesShape | src/execution/toolbox_0_2/toolbox_0_2_1_BCK.py:594-600 | the categories keep the keys and extend each dataset's fields by the field keys of the categories naming it, in order |
| CatalogReaders.DatasetFieldMappingShape | src/execution/toolbox_0_2/toolbox_0_2_1_BCK.py:574-602 | on success both sections are dicts, the keys are exactly the input_datasets keys, and each dataset's fields are the in-order concatenation of field keys of the categories naming it |
| CatalogReaders.GetDatasetFieldMapping | src/execution/toolbox_0_2/toolbox_0_2_1_BCK.py:550-602 | the loops build exactly the reference mapping, including its errors |
| CatalogReaders.BaseMappingStops | src/execution/toolbox_0_2/toolbox_0_2_1_BCK.py:583-591 | the first dataset info that is not a dict stops the loop with AttributeError |
| CatalogReaders.AddCategoriesStops | src/execution/toolbox_0_2/toolbox_0_2_1_BCK.py:594-600 | the first failing category's error is the result |
| AutoDetect.PatternMatchesOwnName | src/execution/toolbox_0_2/toolbox_0_2_1_BCK.py:650-661 | the pattern chosen for a dataset name (the first of "SR16", "AR5", "ElevStats"→"Elev", "Location", else the lower-cased name) always matches that name, case-insensitively |
| AutoDetect.OwnNameDetected | src/execution/toolbox_0_2/toolbox_0_2_1_BCK.py:650-667 | a dataset whose own name is a layer of the map is detected, and as a layer |
| AutoDetect.FirstMatchSpec | src/execution/toolbox_0_2/toolbox_0_2_1_BCK.py:664-667 | no result exactly when no name matches; otherwise the result is the first matching name |
| AutoDetect.NonStringError | src/execution/toolbox_0_2/toolbox_0_2_1_BCK.py:652-661 | a non-string dataset name raises TypeError or AttributeError |
| AutoDetect.NonStringErrorIsIn | src/execution/toolbox_0_2/toolbox_0_2_1_BCK.py:652-661 | which of the two: TypeError when some `in` test raises or succeeds, AttributeError when all four fail and `.lower()` is reached |
| AutoDetect.FindFirst | src/execution/toolbox_0_2/toolbox_0_2_1_BCK.py:664-667 | the search loop with `break` returns the first match |
| AutoDetect.DetectOne | src/execution/toolbox_0_2/toolbox_0_2_1_BCK.py:663-674 | one dataset: the first matching layer, else the first matching table, else no entry |
| AutoDetect.DetectAll | src/execution/toolbox_0_2/toolbox_0_2_1_BCK.py:650-674 | succeeds exactly when all names are strings; otherwise fails with the error of the first non-string; keys are required datasets; each dataset is recorded as the one-dataset search says |
| AutoDetect.AutoDetectInputLayers | src/execution/toolbox_0_2/toolbox_0_2_1_BCK.py:605-681 | no maps or a catalog error gives RuntimeError wrapping it; a non-string required name gives RuntimeError wrapping the error of the first one; success exactly when the required list holds only strings; keys are required datasets, each detected in the first map |
| AutoDetect.LayersBeforeTables | src/execution/toolbox_0_2/toolbox_0_2_1_BCK.py:664-674 | when some layer matches, the detected name is a layer, never a table |
| AutoDetect.PassesIsRate | src/execution/toolbox_0_2/toolbox_0_2_1_BCK.py:761-764 | `5 * found >= 4 * expected` is `found / expected >= 0.80` for non-empty expectations |
| AutoDetect.CheckLayerSpec | src/execution/toolbox_0_2/toolbox_0_2_1_BCK.py:721-769 | unknown dataset → KeyError, expected 0; missing layer → ValueError with expected counted; a failing `ListFields` → its error, with expected counted; errors never pass; otherwise found and missing split the expected fields (found + missing = expected) and the entry passes exactly at 80% of a non-empty list |
| AutoDetect.ThresholdExamples | src/execution/toolbox_0_2/toolbox_0_2_1_BCK.py:761-764 | 3 of 4 fails, 4 of 5 passes, 0 of 0 fails |
| AutoDetect.CheckOne | src/execution/toolbox_0_2/toolbox_0_2_1_BCK.py:722-769 | the per-entry loop body equals the reference result |
| AutoDetect.ValidateAutoDetectedLayers | src/execution/toolbox_0_2/toolbox_0_2_1_BCK.py:707-771 | a non-dict raises ValueError; a catalog error propagates; otherwise one entry per detected dataset, each the reference result |
| AutoDetect.ExpectedFromCategories | src/execution/toolbox_0_2/toolbox_0_2_1_BCK.py:738-739 | the expected count of a known dataset is the number of field keys its categories contribute |
| LayerProcessing.NameSetSnoc | src/execution/toolbox_0_2/toolbox_0_2_3.py:219-225 | one more field adds its name to the name set |
| LayerProcessing.FieldInfoMapKeys | src/execution/toolbox_0_2/toolbox_0_2_3.py:206-228 | the field-info dict is keyed by exactly the field names, so its size is the number of distinct names |
| LayerProcessing.FieldInfoMapLast | src/execution/toolbox_0_2/toolbox_0_2_3.py:219-225 | a repeated name keeps the info of its last field |
| LayerProcessing.DistinctNamesCount | src/execution/toolbox_0_2/toolbox_0_2_3.py:206-228 | with distinct names the dict has one entry per field |
| LayerProcessing.NameSetSize | src/execution/toolbox_0_2/toolbox_0_2_3.py:219-225 | distinct names give a name set as large as the field list |
| LayerProcessing.GetFieldInfo | src/execution/toolbox_0_2/toolbox_0_2_3.py:206-232 | the loop builds the name-keyed dict; an error listing fields gives {} |
| LayerProcessing.DataFields | src/execution/toolbox_0_2/toolbox_0_2_3.py:298 | a name is a data field exactly when some field of that name is neither OID nor Geometry |
| LayerProcessing.RowDict | src/execution/toolbox_0_2/toolbox_0_2_3.py:310 | one row's dict has exactly the data field names as keys |
| LayerProcessing.RowDictCell | src/execution/toolbox_0_2/toolbox_0_2_3.py:310 | a field's value is the cell at its position in the row |
| LayerProcessing.RowDicts | src/execution/toolbox_0_2/toolbox_0_2_3.py:306-311 | dict i is the row-i dict `{field: row[j]}` for each row, and the whole build fails exactly when a row is shorter than the field list |
| LayerProcessing.SampleOfSpec | src/execution/toolbox_0_2/toolbox_0_2_3.py:283-318 | at most sample_size rows and at most the rows read; sampled dict i maps each data field to its cell in cursor row i; [] when ListFields or the cursor raises, when there are no data fields, and when a row read is too short (IndexError); exactly min(sample_size, rows) dicts when every row is complete |
| LayerProcessing.RowDictsKeys | src/execution/toolbox_0_2/toolbox_0_2_3.py:306-311 | every sampled dict has the data fields as its keys |
| LayerProcessing.ReadSampleFeatures | src/execution/toolbox_0_2/toolbox_0_2_3.py:283-318 | the cursor loop with `break` returns the reference sample |
| LayerProcessing.RowDictsShort | src/execution/toolbox_0_2/toolbox_0_2_3.py:310 | a short row makes the sample fail |
| LayerProcessing.AnyNull | src/execution/toolbox_0_2/toolbox_0_2_3.py:377-380 | has_null_values holds exactly when some sampled row has a None value |
| LayerProcessing.BasicResultsSpec | src/execution/toolbox_0_2/toolbox_0_2_3.py:206-397 | success exactly for an accessible layer; a failure is the initial results with zero counts and no sample; on success field_info is the field map (empty when ListFields raises), field_count its number of distinct names, feature_count the host count or 0 when GetCount raises, sample_data the `read_sample_features` sample of 5, and data_quality its size and whether a row holds None |
| LayerProcessing.ProcessLayerBasic | src/execution/toolbox_0_2/toolbox_0_2_3.py:321-397 | the step-by-step fill equals the reference results; progress is all six steps for an accessible layer, and only 5 otherwise |
| Discovery.PredefinedDatasetsShape | src/execution/toolbox_0_2/toolbox_0_2_3.py:69-147 | 54 paths, beginning with srrhogstaar, containing srrtreslag, Table_Grid_8m_ElevStats and ending with Grid_8m_Location |
| Discovery.FilterEmpty | src/execution/toolbox_0_2/toolbox_0_2_3.py:190 | nothing is kept exactly when no element passes |
| Discovery.DiscoverIn | src/execution/toolbox_0_2/toolbox_0_2_3.py:169-203 | found and missing are the paths that exist and the rest, both in order; a probe that raises counts as missing; success exactly when nothing is missing |
| Discovery.DiscoverDatasets | src/execution/toolbox_0_2/toolbox_0_2_3.py:150-203 | the same over the 54 predefined paths |
| Discovery.DiscoverySplit | src/execution/toolbox_0_2/toolbox_0_2_3.py:169-203 | found and missing together are the paths as a multiset; nothing is missing exactly when every path exists, and then all are found |
| Discovery.SucceededIffAccessible | src/execution/toolbox_0_2/toolbox_0_2_3.py:345-389 | a dataset is processed successfully exactly when its layer is accessible |
| Discovery.ResultsOf | src/execution/toolbox_0_2/toolbox_0_2_3.py:430-436 | one result per path |
| Discovery.ResultsOfIndex | src/execution/toolbox_0_2/toolbox_0_2_3.py:430-436 | the i-th result is that of the i-th path |
| Discovery.ResultsOfSnoc | src/execution/toolbox_0_2/toolbox_0_2_3.py:436 | one more success appends its result |
| Discovery.Record | src/execution/toolbox_0_2/toolbox_0_2_3.py:432-443 | one loop step keeps the counters, failure list, results and totals accounting for the paths processed |
| Discovery.ProcessAll | src/execution/toolbox_0_2/toolbox_0_2_3.py:420-445 | after the loop the aggregate accounts for all paths |
| Discovery.ProcessDiscoveredDatasets | src/execution/toolbox_0_2/toolbox_0_2_3.py:400-447 | total = number of paths; results, in input order, for exactly the successes; failed = the other paths in order; field and feature totals sum over successes only |
| Discovery.AggregationAccounts | src/execution/toolbox_0_2/toolbox_0_2_3.py:409-447 | successes + failures = total; every kept result is successful; every failed path was given and is not accessible |
| Reconcile.ResolveOutputPathSpec | src/execution/toolbox_0_2/toolbox_0_2_4.py:527-537 | the path ends with the given name; it is the name unchanged exactly when the name has "/", "\\" or "."; a bare name becomes gdb + "/" + name |
| Reconcile.AddedColumns | src/execution/toolbox_0_2/toolbox_0_2_4.py:561-563 | adding columns keeps every row |
| Reconcile.DroppedColumns | src/execution/toolbox_0_2/toolbox_0_2_4.py:655 | dropping columns keeps every row |
| Reconcile.Project | src/execution/toolbox_0_2/toolbox_0_2_4.py:611-613 | a row's values restricted to the transferred fields |
| Reconcile.ProjectKeys | src/execution/toolbox_0_2/toolbox_0_2_4.py:611-613 | when the row has all the fields, the projection has exactly those keys |
| Reconcile.InputDataSpec | src/execution/toolbox_0_2/toolbox_0_2_4.py:601-613 | an OID is a key exactly when some input row has it, and its values are those of the last such row |
| Reconcile.RewriteSpec | src/execution/toolbox_0_2/toolbox_0_2_4.py:623-637 | a row whose OID is a key takes the input values, None included, and keeps its other cells; other rows are untouched |
| Reconcile.Rewritten | src/execution/toolbox_0_2/toolbox_0_2_4.py:620-637 | the update keeps every row |
| Reconcile.AllTargetsPresent | src/execution/toolbox_0_2/toolbox_0_2_4.py:567-571 | after creation every target field is pre-existing or created |
| Reconcile.AvailableIn | src/execution/toolbox_0_2/toolbox_0_2_4.py:575-587 | a field is transferred exactly when it is a target present in the output, present in the input, and not a system field |
| Reconcile.TargetsAreUserFields | src/execution/toolbox_0_2/toolbox_0_2_4.py:546-550 | no target field is a system field |
| Reconcile.MissingIn | src/execution/toolbox_0_2/toolbox_0_2_4.py:557-564 | a field is created exactly when it is a target absent from the existing fields |
| Reconcile.ToDeleteIn | src/execution/toolbox_0_2/toolbox_0_2_4.py:650 | a field is to be deleted exactly when it exists, is not a system field and is not a target |
| Reconcile.RemovedIn | src/execution/toolbox_0_2/toolbox_0_2_4.py:650-658 | a field is deleted exactly when it is to be deleted and its deletion does not raise |
| Reconcile.FinalIn | src/execution/toolbox_0_2/toolbox_0_2_4.py:556-658 | a field is in the final schema exactly when it existed or was created, and was not deleted |
| Reconcile.KeepsSystemAndTargets | src/execution/toolbox_0_2/toolbox_0_2_4.py:650 | existing system and target fields are never deleted |
| Reconcile.FinalSchema | src/execution/toolbox_0_2/toolbox_0_2_4.py:556-662 | when every deletion succeeds, the non-system fields afterwards are exactly the target fields |
| Reconcile.OutputTable.constructor | src/execution/toolbox_0_2/toolbox_0_2_4.py:545 | the table holds the given fields and rows |
| Reconcile.OutputTable.AddField | src/execution/toolbox_0_2/toolbox_0_2_4.py:561-563 | the field is appended and every row gets a Null cell for it |
| Reconcile.OutputTable.DeleteField | src/execution/toolbox_0_2/toolbox_0_2_4.py:655 | the field leaves the schema and every row |
| Reconcile.OutputTable.UpdateRows | src/execution/toolbox_0_2/toolbox_0_2_4.py:620-637 | the schema is unchanged; every row is rewritten through the OID dict; the count is the number of rows whose OID is a key |
| Reconcile.CreateFields | src/execution/toolbox_0_2/toolbox_0_2_4.py:557-564 | the targets absent from the schema, in target order, are appended once each and returned |
| Reconcile.ReadInputData | src/execution/toolbox_0_2/toolbox_0_2_4.py:601-613 | the search-cursor loop builds the reference OID dict |
| Reconcile.TransferValues | src/execution/toolbox_0_2/toolbox_0_2_4.py:567-646 | with no transferable field nothing changes and the count is 0; otherwise the rows are rewritten through the input's OID dict and the count is the number of matched rows |
| Reconcile.DeleteFields | src/execution/toolbox_0_2/toolbox_0_2_4.py:650-658 | the deletions that do not raise are counted and applied; those that raise are reported and the loop goes on |
| Reconcile.ReconcileOutput | src/execution/toolbox_0_2/toolbox_0_2_4.py:544-662 | created = missing targets; deleted = successful deletions, at most the fields to delete; the final schema is `FinalFields`; rows are created, updated, then cleared of deleted columns |
| Reconcile.WriteOutput | src/execution/toolbox_0_2/toolbox_0_2_4.py:527-669 | the resolved path; copied from the input exactly when the output does not exist; otherwise reconciled with the created, updated, deleted and undeletable counts, the final schema and the rewritten rows of ReconcileOutput |
| PhaseOneOptions.Trunc | src/toolbox_0_1_4.py:50 | Python's `int(x)`: truncation toward zero |
| PhaseOneOptions.ThreadCountsShape | src/toolbox_0_1_4.py:46-50 | the counts are `max(1, cores // 4)`, `max(2, cores // 2)` and `max(3, int(0.75 * cores))`, pinned by floor brackets; non-decreasing, and the last at most the cores from 3 cores up |
| PhaseOneOptions.ThreadOptionsShow | src/toolbox_0_1_4.py:46-56 | entry i names tier i (Conservative, Balanced, Performance) and no other tier, and the count it shows reads back as the i-th count |
| PhaseOneOptions.MemoryCountsShape | src/toolbox_0_1_4.py:59-64 | the sizes are `max(2, int(0.25 * m))`, `max(4, int(0.5 * m))` and `max(6, int(0.75 * m))`, pinned by floor brackets; non-decreasing, and within 25/50/75% of the memory from 8 GB up |
| PhaseOneOptions.MemoryOptionsShow | src/toolbox_0_1_4.py:59-70 | entry i names tier i and no other tier, and the GB figure it shows reads back as the i-th size |
| PhaseOneOptions.OptionExamples | src/toolbox_0_1_4.py:46-70 | 8 cores and 8 GB give 2, 4 and 6, and the thread labels are spelled out |
| PhaseOneOptions.SpellThreadLabel | src/toolbox_0_1_4.py:53-55 | a one-digit count is printed as its digit |
| PhaseOneOptions.Dropdowns | src/toolbox_0_1_4.py:129-175 | three options per dropdown, and each defaults to its Balanced entry, a member of its list |
| PhaseOneOptions.FallbackDropdowns | src/toolbox_0_1_4.py:129-175 | the fallback figures give "Conservative (1 threads)", "Balanced (2 threads)", "Performance (3 threads)" and a "Balanced (4 GB)" memory default |
| PhaseOneOptions.FourThreadCountsShape | src/execution/toolbox_0_1/toolbox_0_1_3.py:45-53 | the counts are `max(1, cores // 4)`, `max(1, cores // 2)`, `max(1, int(0.75 * cores))`, pinned by floor brackets, and all the cores; for at least one core each lies between 1 and the cores, non-decreasing |
| PhaseOneOptions.FourThreadOptionsShow | src/execution/toolbox_0_1/toolbox_0_1_3.py:45-53 | entry i names tier i (Conservative, Balanced, Aggressive, Maximum) and no other tier, and the count it shows reads back as the i-th count |
| PhaseOneOptions.FourMemoryValuesShape | src/execution/toolbox_0_1/toolbox_0_1_3.py:56-62 | each size is the larger of its share (25/50/75/90% of the memory) and its minimum (2/4/6/8 GB); non-decreasing |
| PhaseOneOptions.FourMemoryOptionsShow | src/execution/toolbox_0_1/toolbox_0_1_3.py:56-70 | entry i begins with tier i, and the figure it shows is the one-decimal rendering of the i-th size |
| PhaseOneOptions.FourOptionLabels | src/execution/toolbox_0_1/toolbox_0_1_3.py:47-69 | every thread label contains "threads)" and every memory label "GB)" |
| PhaseOneOptions.ThreadLabelContains | src/execution/toolbox_0_1/toolbox_0_1_3.py:48-51 | a thread label contains "threads)" |
| PhaseOneOptions.OneDecimalLabelContains | src/execution/toolbox_0_1/toolbox_0_1_3.py:65-68 | a memory label contains "GB)" |
| PhaseOneOptions.FourTierDropdowns | src/execution/toolbox_0_1/toolbox_0_1_3.py:130-150 | four options per dropdown, each defaulting to its Balanced entry, a member of its list |

## Left out

- The `arcpy` host is not modelled. Its answers are parameters: `ListFields`, `Exists`, `Describe`, the cursors, `AddField`/`DeleteField`/`CopyFeatures`, the project's maps, layers and tables, and the messages. `AddMessage`/`AddError` logging is left out.
- OS probes are parameters. `os.cpu_count`, `psutil.virtual_memory` and `psutil.cpu_count` become the probe datatypes of `Capabilities`, including "raises".
- `load_import_fields_json` is left out because it reads a file. The catalog reaches the readers as an already-parsed `Json` value. The validators assume `json.load`'s distinct keys (`requires Parsed(doc)`).
- ImportError branches are not modelled separately. "arcpy is not available" returns `{}` from `auto_detect_input_layers` and raises in `validate_auto_detected_layers`. The model assumes arcpy is present.
- Float formatting is not modelled.
  - `{avail_gb:.1f}` is modelled for whole GB figures only, printed as "N.0".
  - The v0.1.3 memory labels take the one-decimal formatter as a parameter, `oneDecimal`.
  - Memory is otherwise a `real`, so 0.25, 0.5, 0.75 and 0.9 are exact, not binary floats.
- Capabilities.RoundGb: ties-to-even is not pinned down. The contract only bounds the result within half a GiB.
- The `str(e)` text of errors is not modelled. Errors are carried as the exception kind with its message argument, so `str(KeyError(m))`'s added quotes are not.
- Logging-only functions are left out: `log_system_capabilities`, `log_import_fields_validation`, and the message sequences of `main()`/`execute()`.
- Copies and static versions are left out because they add no logic: toolbox 0.1.1, 0.1.7, 0.1.10, 0.1.11 and 0.1.12 (static lists, or validators that are only string literals), and `src/toolbox_0_1_3.py`, a private-API demo.
- `src/validation/toolbox_0_2/validation_toolbox_0_2_1.py` is left out. Every line of it pastes two versions together, so it is not a coherent program. Its functions are modelled from `toolbox_0_2_1_BCK.py`.
- Two inconsistencies are left out:
  - `src/execution/toolbox_0_2/toolbox_0_2_1.py:453` unpacks a four-key dict into three names.
  - `toolbox_0_2_1_BCK.py:899-900` logs `validate_import_fields` output as per-dataset dicts.
  Both are in `main` logging paths, which are not modelled.
- Dict insertion order is not modelled. The dicts built by `get_field_info`, `auto_detect_input_layers` and `validate_auto_detected_layers`, and the OID dict, are Dafny maps. Their contents are modelled; their key order is not.
- Lower-casing is ASCII only. Non-ASCII case folding in `.lower()` is not modelled.
- The fallback lists in the `except` branches of `_get_thread_options` and `_get_memory_options` are left out. Those branches cannot be reached with numeric capabilities.
- ValidatorV023.Dirname: `os.path.dirname` is modelled as splitting at the last `/` or `\` separator. The drive that Windows' `ntpath` splits off first is not modelled: neither drive letters (`C:x` gives `C:`) nor UNC prefixes (`\\server\share\x` gives `\\server\share\`, where the model gives `\\server\share`, and `\\server\share` stays whole, where the model gives `\\server`).
- The `updateParameters` of validator v0.2.3 is left out. It changes nothing, since its only branch is `pass`.
- The outer `except` of `process_layer_basic` is not reachable in the model. The inner helpers catch their own errors, and a failing `GetCount` is a host answer.
- The `workspace` argument of `discover_datasets` and the `progress_callback` messages are left out. The probe is a parameter, and the progress percentages are returned as a sequence.
- Discovery.PredefinedDatasetsShape: distinctness of the 54 paths is not proved. Comparing 1431 pairs of string constants is too costly for the verifier. Length, first, last and the named members are proved.
- Reconcile: the following abort the whole tool through the outer `except` of `main`, which is not modelled:
  - `AddField_management` raising;
  - either cursor raising;
  - a failing `ListFields` on the input.
- Reconcile.WriteOutput: `CopyFeatures_management` is modelled as copying fields and rows unchanged. Renumbering OBJECTIDs is not modelled.
- Reconcile.DeleteFields: the warning for a failed delete is modelled by the field name only.
- Labels.ModerateThreads: proves the count is at most the cores only from 5 cores up. From 2 to 4 cores the count is 2, also within range.

