# A multi-turn product-recommendation agent, modelled in Dafny

This project models the deterministic core of a conversational shopping
assistant. Each user turn goes through the same steps:

- The query's intent is classified as SEARCH, REFINE, CLARIFY or CHITCHAT.
- Price, brand, category, feature and rating filters are extracted from the query.
- The session's accumulated filters move according to the intent.
- Products are retrieved and ranked against the filters.
- A prompt is built and a language model is asked for recommendations.
- The reply is validated against the catalogue.
- Rejected products are dropped and the turn is recorded in a bounded history.

The language models, the vector database, `json.loads`/`json.dumps` and the
number formatting are parameters of the model, so every operation is a
function of its inputs.

Modules, one per source file:

- `Text` and `Types`: the Python string and dictionary behaviour the agent relies on: ASCII `lower`/`upper`, `strip`, substring tests, `join`, slices, truthiness, `list(set(..))`.
- `Config`: the constants of `config.py`.
- `ContextManagement`: `agent/context_manager.py`, as a class whose methods update the history, the filters and the rejected ids.
- `FilterExtraction`: `agent/filter_extractor.py`.
- `IntentClassification`: `agent/intent_classifier.py`.
- `LlmClient`: `agent/llm_client.py`.
- `PromptBuilding`: `agent/prompt_builder.py`.
- `RagRetrieval`: `agent/rag_retriever.py`.
- `AgentCore`: `agent/core.py`, as a class `Agent` holding the session context and the validation catalogue.

Where a loop in the source updates state, the model is a method with a loop.
Each such method is proved equal to a specification function, and the
properties are proved about that function.

Two behaviours of the code are easy to misread:

- `get_recommendations` is not total. With an empty catalogue, both `_validate_response` and `_fallback_response` take `list(self.valid_product_ids)[0]` and raise `IndexError` (agent/llm_client.py:121, :149). The second of these is raised inside the `except` block of the retry loop, so it escapes. `LlmClient.GetRecommendations` returns `Err(EmptyCatalog)` exactly then.
- A SEARCH turn calls `clear_filters` before `update_filters` (agent/core.py:80-83). But the filters it then writes come from `extract`, which has already merged them into the existing filters (agent/filter_extractor.py:93-96), and whose keyword fallback starts from a copy of them (agent/filter_extractor.py:101). So an earlier price, rating or category filter survives a SEARCH turn (`AgentCore.SearchKeepsEarlierScalars`).

## Model

| member | source | states |
|---|---|---|
| Types.Dedup | agent/context_manager.py:38 | `list(set(..))`: the result has exactly the elements of the input, and none twice |
| Types.DedupAbsorbs | agent/context_manager.py:38 | re-adding elements already present to a duplicate-free list changes nothing |
| Types.WellFormedByKey | agent/filter_extractor.py:15-23 | the filter schema's types (numbers for the bounds, a string category, string lists) hold exactly when each key holds its declared type |
| Types.WrittenRestrictStep | agent/context_manager.py:32-33 | copying one more incoming key adds it to the written keys exactly when its value is not `None` |
| ContextManagement.UpdatedFilters | agent/context_manager.py:29-41 | the keys become the old keys plus those given a non-`None` value; untouched keys keep their value; a non-`None` scalar overrides; list keys keep holding lists |
| ContextManagement.UpdateUnitesLists | agent/context_manager.py:34-38 | a list key becomes the duplicate-free union of the stored list and the new value, a scalar counting as a one-element list |
| ContextManagement.UpdateIdempotent | agent/context_manager.py:32-41 | applying the same update twice gives the same filters as applying it once |
| ContextManagement.UpdatedWellFormed | agent/context_manager.py:29-41 | merging well-typed filters keeps every schema key at its type |
| ContextManagement.LastNAppend | agent/context_manager.py:22-26 | trimming to the last N after every append equals trimming once at the end |
| ContextManagement.ContextManager.constructor | agent/context_manager.py:11-14 | a new context has an empty history, no filters and no rejected ids |
| ContextManagement.ContextManager.AddTurn | agent/context_manager.py:16-26 | the history becomes the last 10 of the old history plus the new turn, which is last; filters and rejected ids are unchanged |
| ContextManagement.ContextManager.UpdateFilters | agent/context_manager.py:29-41 | the loop over the new filters leaves exactly `UpdatedFilters(old, new)`; history and rejected ids are unchanged |
| ContextManagement.ContextManager.MarkRejected | agent/context_manager.py:43-45 | the rejected set becomes old ∪ {id}; nothing else changes |
| ContextManagement.ContextManager.Reset | agent/context_manager.py:59-63 | history, filters and rejected ids are emptied |
| ContextManagement.ContextManager.ClearFilters | agent/context_manager.py:65-67 | only the filters are emptied |
| ContextManagement.ContextManager.GetFilters | agent/context_manager.py:47-49 | the current filters; a Dafny map is a value, so the caller gets the copy `get_filters` promises and cannot change the context through it |
| ContextManagement.ContextManager.GetHistory | agent/context_manager.py:51-53 | the current history; a sequence is a value, which gives the copy `get_history` returns |
| ContextManagement.ContextManager.GetRejectedIds | agent/context_manager.py:55-57 | the rejected ids; a set is a value, which gives the copy `get_rejected_ids` returns |
| ContextManagement.UpdateStep | agent/context_manager.py:32-41 | one loop iteration changes only the entry of the key it merges |
| FilterExtraction.OrEmpty | agent/filter_extractor.py:139-140 | `x or []`: a falsy value is the empty list, a list is itself, a truthy scalar stays a scalar |
| FilterExtraction.Concat | agent/filter_extractor.py:141 | `+` then `set(..)`: two lists concatenate; two strings concatenate into a string whose characters are collected; a list with a scalar, or a number, raises |
| FilterExtraction.Chars | agent/filter_extractor.py:141 | iterating a string gives each of its characters as a one-character string, in order |
| FilterExtraction.Merged | agent/filter_extractor.py:131-146 | `_merge_filters` raises exactly when a list key meets operands that `+` or `set` reject; otherwise the keys are the old keys plus the new non-`None` ones, untouched keys keep their value and new scalars override |
| FilterExtraction.MergeUnitesLists | agent/filter_extractor.py:137-141 | a list key becomes the duplicate-free union of the existing and the new list |
| FilterExtraction.MergeRejectsScalarList | agent/filter_extractor.py:139-141 | a non-empty string under a list key makes the merge raise, unless the existing value is a non-empty string too; `update_filters` would have wrapped it |
| FilterExtraction.MergeConcatenatesStrings | agent/filter_extractor.py:139-141 | two non-empty strings under a list key do not raise: the stored list holds each character of their concatenation once |
| FilterExtraction.MergeOfListsSucceeds | agent/filter_extractor.py:131-146 | when list keys hold lists or `None`, the merge does not raise |
| FilterExtraction.MergeFilters | agent/filter_extractor.py:131-146 | the copying loop computes `Merged(existing, new)` |
| FilterExtraction.MergeStep | agent/filter_extractor.py:135-144 | one loop iteration changes only the entry of the key it merges |
| FilterExtraction.NoClashStep | agent/filter_extractor.py:135-144 | a key that does not clash keeps the merge of the keys copied so far from raising |
| FilterExtraction.FirstMatch | agent/filter_extractor.py:120-127 | the value a field takes from the vague terms is the value of the first term in the query that maps that field |
| FilterExtraction.FirstMatchAppend | agent/filter_extractor.py:120-127 | a later term can only set a field that no earlier term set |
| FilterExtraction.VagueApplied | agent/filter_extractor.py:116-129 | the vague terms only add the bound keys, and never change a key outside them or a key that already holds a value |
| FilterExtraction.VagueFirstMatch | agent/filter_extractor.py:116-129 | after the vague terms, a bound key left `None` by the model holds the first matching term's value; every other key is unchanged |
| FilterExtraction.ApplyVagueTerms | agent/filter_extractor.py:116-129 | the loop over the vague terms computes `VagueApplied` on the lower-cased query |
| FilterExtraction.CheapSetsPriceMax | agent/filter_extractor.py:120-123 | "cheap" caps the price at 50 when the model gave no cap |
| FilterExtraction.VagueAppliedWellFormed | agent/filter_extractor.py:116-129 | vague terms only write numbers under the bound keys |
| FilterExtraction.RegexExtract | agent/filter_extractor.py:148-171 | `_regex_extract` keeps every existing key and adds at most the bound keys; every key other than the price and rating bounds keeps its value |
| FilterExtraction.RegexPriceRules | agent/filter_extractor.py:153-163 | "under"/"less than"/"below" caps the price at the smallest number; otherwise "over"/"more than"/"above" floors it at the largest; otherwise a single number caps it; other keys are copied |
| FilterExtraction.RegexRatingRule | agent/filter_extractor.py:165-169 | a rating match sets `rating_min` to the first such number; otherwise it is unchanged |
| FilterExtraction.RegexWithoutNumbers | agent/filter_extractor.py:148-171 | a query without numbers leaves the filters as they were |
| FilterExtraction.UserLines | agent/filter_extractor.py:109-112 | one line `Turn i: <user>` per turn, numbered from 1 |
| FilterExtraction.FormatHistory | agent/filter_extractor.py:104-114 | "No previous conversation." for an empty history; otherwise the text opens with `Turn 1: ` and the user text of the oldest of the last three turns |
| FilterExtraction.HistoryLinesRecoverTurns | agent/filter_extractor.py:104-114 | the lines cover the last three turns in order, and each line's tail is that turn's user text |
| FilterExtraction.FromOutput | agent/filter_extractor.py:81-89 | the model's reply becomes all seven keys, well typed, with list keys never `None` |
| FilterExtraction.Extracted | agent/filter_extractor.py:48-102 | whichever path is taken, every existing key is still present |
| FilterExtraction.Extract | agent/filter_extractor.py:48-102 | model path: vague terms, then merge; on a failed call, parse or merge, the keyword fallback |
| FilterExtraction.ExtractKeepsExisting | agent/filter_extractor.py:95-150 | both paths keep every existing key; keys outside the schema keep their value |
| FilterExtraction.ExtractModelPathOverrides | agent/filter_extractor.py:81-97 | a value the model gives for a bound or the category overrides the existing one |
| FilterExtraction.MergedWellFormed | agent/filter_extractor.py:131-146 | a merge that does not raise keeps every schema key at its type |
| FilterExtraction.ExtractedWellFormed | agent/filter_extractor.py:48-102 | extraction from well-typed filters gives well-typed filters |
| IntentClassification.FallbackClassify | agent/intent_classifier.py:97-117 | the heuristic's confidence is 0.7, 0.6, 0.6 or 0.5 by intent |
| IntentClassification.FallbackNeedsHistoryToRefine | agent/intent_classifier.py:111-114 | without history, the heuristic never answers REFINE |
| IntentClassification.FallbackPriorities | agent/intent_classifier.py:101-117 | each rule as an equivalence: CHITCHAT exactly with a greeting; CLARIFY exactly with no greeting, a clarifying word and a "?"; REFINE exactly with none of those, a refinement word and history; SEARCH otherwise |
| IntentClassification.HelloIsChitchat | agent/intent_classifier.py:101-104 | "Hello, how are you?" is CHITCHAT with confidence 0.7 |
| IntentClassification.SubstringGreetingIsChitchat | agent/intent_classifier.py:102-104 | "I want something cheap" is CHITCHAT, because "hi" occurs inside "something" |
| IntentClassification.ParseIntent | agent/intent_classifier.py:71-73 | a label is accepted exactly when its upper-cased form is one of the four intents |
| IntentClassification.ParseIntentIgnoresCase | agent/intent_classifier.py:71 | each intent's name is recognised in upper and lower case |
| IntentClassification.Clamp | agent/intent_classifier.py:77 | the confidence is clamped into [0, 1] and unchanged inside it |
| IntentClassification.Classify | agent/intent_classifier.py:43-82 | the confidence is in [0, 1] and on the model path is the reply's confidence clamped; the intent is the model's label or SEARCH for an unknown label; without a reply, the heuristic |
| IntentClassification.TurnBlocks | agent/intent_classifier.py:89-93 | block `i` is the block `Turn n:\nUser: ..\nAgent: ..` of turn `i`, numbered from the given start |
| IntentClassification.FormatHistory | agent/intent_classifier.py:84-95 | "No previous conversation." for an empty history; otherwise the text opens with the block `Turn 1:\nUser: ..\nAgent: ..` of the oldest of the last three turns |
| IntentClassification.HistoryBlocksRecoverTurns | agent/intent_classifier.py:84-95 | the blocks are exactly those of the last three turns (or all when fewer), in order, numbered from 1 |
| IntentClassification.BlockUserText | agent/intent_classifier.py:93 | a block gives back its turn's user text right after the 14-character header |
| LlmClient.ExtractJson | agent/llm_client.py:83-91 | with a `{`…`}` pair, the result is the span from the first `{` to the last `}`; otherwise it is the stripped content |
| LlmClient.ExtractJsonIdempotent | agent/llm_client.py:83-91 | extracting twice gives what extracting once gives |
| LlmClient.NameFor | agent/llm_client.py:108-114 | the name is never empty, and a given name is kept |
| LlmClient.KeptRecs | agent/llm_client.py:97-116 | an unhashable id raises; otherwise the kept entries are at most the considered ones, each with a catalogue id, a name and a reasoning, and every surviving entry is kept |
| LlmClient.KeptRecsSnoc | agent/llm_client.py:100-116 | one more entry is dropped, converted and appended, or raises |
| LlmClient.KeptRecsProvenance | agent/llm_client.py:100-116 | every kept recommendation comes from a surviving entry of the reply |
| LlmClient.KeptRecsEmptyCatalog | agent/llm_client.py:107 | with an empty catalogue nothing survives |
| LlmClient.Considered | agent/llm_client.py:98-100 | at most `MAX_RECOMMENDATIONS` (5) entries are considered |
| LlmClient.CleanQuestions | agent/llm_client.py:133-136 | every question is stripped and non-empty, and every truthy non-blank question appears |
| LlmClient.FollowUpsOf | agent/llm_client.py:130-138 | at most three stripped, non-empty questions |
| LlmClient.FallbackRecs | agent/llm_client.py:119-127 | the fallback is one recommendation of a catalogue product |
| LlmClient.ValidationFailure | agent/llm_client.py:93-144 | validation raises unless the reply is an object whose considered entries have hashable ids; the empty-catalogue error only for an empty catalogue |
| LlmClient.RecsFrom | agent/llm_client.py:116-127 | the recommendations are the kept ones, or one fallback entry when none was kept: never empty, and impossible with an empty catalogue and nothing kept |
| LlmClient.ValidationBounds | agent/llm_client.py:93-144 | a validated reply has one to five recommendations, each naming a catalogue product, and at most three clean questions |
| LlmClient.EmptyCatalogNeverValidates | agent/llm_client.py:119-121 | with an empty catalogue, validation always raises |
| LlmClient.KeptRecsPrefixRaises | agent/llm_client.py:100-116 | an entry that raises makes the whole validation raise |
| LlmClient.ValidateResponse | agent/llm_client.py:93-144 | the loop raises exactly when the specification says so, and otherwise returns the specified validation |
| LlmClient.FallbackResponse | agent/llm_client.py:146-163 | raises exactly for an empty catalogue; otherwise one catalogue product and the three canned questions |
| LlmClient.AttemptsFailOnEmptyCatalog | agent/llm_client.py:56-79 | with an empty catalogue every attempt raises |
| LlmClient.ReplyAt | agent/llm_client.py:60-67 | an attempt has a parsed reply only when the model answered, and it is the parse of the JSON extracted from the answer |
| LlmClient.Attempt | agent/llm_client.py:58-73 | an attempt fails exactly when the call or the parse gives nothing or the validation raises, and otherwise returns the validation of its reply |
| LlmClient.Retry | agent/llm_client.py:56-79 | at most `max_retries + 1` attempts, every one before the last failed, and the loop stops early only on a validated reply |
| LlmClient.GetRecommendations | agent/llm_client.py:44-81 | at most `max_retries + 1` calls; every call before the last failed; the result validates the last reply, or is the fallback when all calls failed; `Err` exactly for an empty catalogue |
| PromptBuilding.Lowered | agent/prompt_builder.py:155-156 | every string lower-cased, in order |
| PromptBuilding.MatchCount | agent/prompt_builder.py:157 | the count is zero exactly when no wanted feature matches, and full exactly when all match |
| PromptBuilding.Score | agent/prompt_builder.py:125-163 | the score is never negative, and it is zero exactly when a price, brand or rating filter excludes the product |
| PromptBuilding.MatchScore | agent/prompt_builder.py:125-163 | the method with early returns computes `Score` |
| PromptBuilding.CountMatches | agent/prompt_builder.py:157 | the counting loop computes `MatchCount` |
| PromptBuilding.FeatureScale | agent/prompt_builder.py:153-161 | the feature factor is 1 without wanted features, 0.3 when none matches, and 1 + 0.2 per match otherwise |
| PromptBuilding.ScoreBounds | agent/prompt_builder.py:125-163 | a product that no hard filter excludes scores between 0.15 and 1 + 0.2 per wanted feature |
| PromptBuilding.NoFiltersScoreOne | agent/prompt_builder.py:125-163 | with no filter set, every product scores 1 |
| PromptBuilding.ZeroBoundIgnored | agent/prompt_builder.py:130-150 | a bound of 0 scores exactly like no bound, because the truthiness test skips it |
| PromptBuilding.ZeroPriceMaxAdmitsAll | agent/prompt_builder.py:132-133 | a price cap of 0 admits every product at score 1 |
| PromptBuilding.Insert | agent/prompt_builder.py:174 | insertion keeps the multiset of entries |
| PromptBuilding.InsertSorted | agent/prompt_builder.py:174 | insertion keeps the order: score descending, ties in input order |
| PromptBuilding.SortByScore | agent/prompt_builder.py:174 | the stable descending sort is a permutation |
| PromptBuilding.SortByScoreSorted | agent/prompt_builder.py:174 | the sorted list is by score descending, ties in input order |
| PromptBuilding.Positives | agent/prompt_builder.py:167-171 | at most one entry per product |
| PromptBuilding.PositivesShape | agent/prompt_builder.py:167-171 | exactly the products with a positive score, each with its score and index, in input order |
| PromptBuilding.PositivesStep | agent/prompt_builder.py:168-171 | one more product adds its entry exactly when its score is positive |
| PromptBuilding.ProductsOf | agent/prompt_builder.py:175 | the products of the scored entries, in order |
| PromptBuilding.Ranked | agent/prompt_builder.py:165-175 | at most one product per input product, each taken from the input with a positive score |
| PromptBuilding.RankedOrder | agent/prompt_builder.py:165-175 | the ranking holds every product with a positive score and nothing else, by score descending, ties in input order |
| PromptBuilding.RankedSameEntries | agent/prompt_builder.py:174 | sorting keeps the length and the members of the list |
| PromptBuilding.ApplyFiltersToProducts | agent/prompt_builder.py:165-175 | the loop and sort compute `Ranked(products, filters)` |
| PromptBuilding.GetTopProducts | agent/prompt_builder.py:112-123 | the result is the first `top_k` of the ranking |
| PromptBuilding.TopProductsBounded | agent/prompt_builder.py:112-123 | at most 10 catalogue products, each with a positive score, scores descending |
| PromptBuilding.SetKeys | agent/prompt_builder.py:95-108 | a key gets a line exactly when it is in the fixed key list and its filter is set, and the lines keep the order of that list (a subsequence of it) |
| PromptBuilding.Label | agent/prompt_builder.py:96-108 | every filter line starts with "-" |
| PromptBuilding.FilterLinesInOrder | agent/prompt_builder.py:93-108 | one line per set filter, in the order price_min, price_max, brand_include, brand_exclude, category, features, rating_min |
| PromptBuilding.FormatFilters | agent/prompt_builder.py:91-110 | "No specific filters." exactly when no filter is set |
| PromptBuilding.TurnLines | agent/prompt_builder.py:80-87 | the lines of one turn: the header `Turn i:`, `  User: ` and the user text, and for a non-empty reply `  Agent: ` with its first 100 characters and "..." |
| PromptBuilding.SummaryBlocks | agent/prompt_builder.py:80-87 | block `i` is the lines of turn `i`, numbered from the given start |
| PromptBuilding.FormatConversationSummary | agent/prompt_builder.py:75-89 | "No previous conversation." exactly for an empty history; otherwise the summary starts with "Turn 1:" |
| PromptBuilding.SummaryShowsLastTurns | agent/prompt_builder.py:75-89 | a non-empty history is summarised by its last three turns (or all when fewer), in order, numbered from 1, each as its `TurnLines` at its offset, and nothing else |
| PromptBuilding.FormatProducts | agent/prompt_builder.py:177-186 | "No products available." for an empty list; otherwise the text starts with the first product's JSON |
| PromptBuilding.Dumps | agent/prompt_builder.py:182-185 | the JSON of each product, in order |
| PromptBuilding.ProductsListed | agent/prompt_builder.py:177-186 | a non-empty list is written as every product's JSON, in order, each at its offset and separated from the next by a blank line, and nothing else |
| PromptBuilding.Build | agent/prompt_builder.py:22-73 | the prompt is the system prompt, then the history, filters, products and query sections each with its heading and the rule of 50 "=", then the output schema, joined with newlines; the products are the given ones filtered and ranked, or the top 10 of the catalogue |
| RagRetrieval.RewriteQuery | agent/rag_retriever.py:123-126 | the rewritten query is the query with surrounding whitespace removed; it is stripped and occurs in the query |
| RagRetrieval.NormalizeFilterValue | agent/rag_retriever.py:265-269 | numbers pass unchanged; a string becomes a stripped, lower-case string no longer than it |
| RagRetrieval.NormalizeIdempotent | agent/rag_retriever.py:265-269 | normalising twice is normalising once |
| RagRetrieval.OpValue | agent/rag_retriever.py:211-221 | the operand of an operator is taken from the dictionary |
| RagRetrieval.AgePreds | agent/rag_retriever.py:210-222 | the age key gives at most two predicates |
| RagRetrieval.EntryPreds | agent/rag_retriever.py:205-229 | `None` gives nothing; a dictionary gives one predicate per operator, in order; a scalar gives one equality on its normalised value |
| RagRetrieval.RawPreds | agent/rag_retriever.py:205-229 | the translation succeeds only when every entry does |
| RagRetrieval.RawPredsPrefixFails | agent/rag_retriever.py:205-229 | an entry that raises makes the whole translation raise |
| RagRetrieval.AgentPreds | agent/rag_retriever.py:232-255 | at most five predicates, and none exactly when no price, category, included brand or rating filter is set |
| RagRetrieval.AgentPredsShape | agent/rag_retriever.py:232-255 | one predicate per truthy price_min, price_max, category, brand_include and rating_min; the first included brand is lower-cased; brand_exclude adds nothing |
| RagRetrieval.Wrap | agent/rag_retriever.py:257-263 | no predicate gives `None`, and a `$and` always has two or more |
| RagRetrieval.WrapRoundTrip | agent/rag_retriever.py:257-263 | unwrapping the where-clause gives back the predicates |
| RagRetrieval.ChromaFilters | agent/rag_retriever.py:197-263 | raises exactly when an extracted attribute does; the clause is `None` exactly when neither side gives a predicate |
| RagRetrieval.ChromaFiltersLayout | agent/rag_retriever.py:197-263 | the raw filters' predicates come first, then the agent filters' predicates |
| RagRetrieval.BuildChromaFilters | agent/rag_retriever.py:197-263 | the loop computes `ChromaFilters`, raising exactly when the specification does |
| RagRetrieval.AgeExactMeansInRange | agent/rag_retriever.py:214-217 | an exact age matches a product exactly when it lies within the product's age range |
| RagRetrieval.AgeRangeMeansWithin | agent/rag_retriever.py:211-213 | an age range matches a product exactly when the product's range lies within it |
| RagRetrieval.FirstText | agent/rag_retriever.py:303-305 | an `or` chain gives the first non-empty option, or the default when there is none |
| RagRetrieval.NatText | agent/rag_retriever.py:290 | decimal digits without a leading zero whose value is the index |
| RagRetrieval.KeywordsIn | agent/rag_retriever.py:331-339 | exactly the keywords that occur in the description, in list order (a subsequence of the list) |
| RagRetrieval.DocFeatures | agent/rag_retriever.py:320-341 | at most 11 features; each is a known keyword, except the leading category when there is one |
| RagRetrieval.DocFeaturesShape | agent/rag_retriever.py:320-341 | the category, lower-cased with spaces as "-", comes first when there is one; the rest is exactly the keywords found in the lower-cased description, in list order |
| RagRetrieval.ExtractFeaturesFromDoc | agent/rag_retriever.py:320-341 | the method computes `DocFeatures` |
| RagRetrieval.KeywordScan | agent/rag_retriever.py:337-339 | the scanning loop computes `KeywordsIn` |
| RagRetrieval.Convert | agent/rag_retriever.py:292-316 | raises exactly when the document does not decode or a price or rating does not convert; otherwise the id is `ids[i]` or `prod_i`, the name the first of name, title, product name or "Unknown Product", the category and brand the metadata's, the document's, or "General" and "Unknown Brand", price and rating the converted `or` chains, and the features those of the document |
| RagRetrieval.Conversions | agent/rag_retriever.py:292-316 | one conversion outcome per document |
| RagRetrieval.ConversionAt | agent/rag_retriever.py:292-316 | outcome `i` is the conversion of document `i` |
| RagRetrieval.ConvertedPrefix | agent/rag_retriever.py:292-316 | at most one product per conversion considered |
| RagRetrieval.ConvertedPrefixStep | agent/rag_retriever.py:311-316 | one more document appends its product, or nothing when its conversion raised |
| RagRetrieval.ConvertedFrom | agent/rag_retriever.py:292-316 | every product kept comes from a conversion that did not raise |
| RagRetrieval.Transformed | agent/rag_retriever.py:271-318 | no documents give no products; otherwise at most one product per document |
| RagRetrieval.TransformedProducts | agent/rag_retriever.py:271-318 | every product has a non-empty name, category and brand |
| RagRetrieval.AllConverted | agent/rag_retriever.py:292-316 | when no conversion raises, product `i` is outcome `i` |
| RagRetrieval.AllDocumentsConverted | agent/rag_retriever.py:286-318 | when every document converts, product `i` is document `i` converted, with id `ids[i]` or `prod_i` |
| RagRetrieval.ConvertDocument | agent/rag_retriever.py:292-316 | the `try` block computes `Convert`, `None` standing for the exception |
| RagRetrieval.TransformResults | agent/rag_retriever.py:271-318 | the loop computes `Transformed` |
| RagRetrieval.StripFences | agent/rag_retriever.py:177-180 | the text without its fences is no longer than the text, and stripped |
| RagRetrieval.SafeJsonLoads | agent/rag_retriever.py:173-195 | the cleaned text is decoded when it decodes; "no JSON object" exactly when it does not decode and has no `{`…`}` span |
| RagRetrieval.FencedReplyUnwrapped | agent/rag_retriever.py:175-183 | a reply fenced as ```` ```json ```` … ```` ``` ```` parses like its stripped content |
| RagRetrieval.StripNoBraces | agent/rag_retriever.py:175 | stripping does not create a brace pair |
| RagRetrieval.StripFencesNoBraces | agent/rag_retriever.py:177-180 | removing fences does not create a brace pair |
| RagRetrieval.FencesRemoved | agent/rag_retriever.py:177-180 | a reply fenced as ```` ```json ```` … ```` ``` ```` is left alone by stripping, and removing the fences leaves its content stripped |
| RagRetrieval.NoBracesNoObject | agent/rag_retriever.py:187-189 | a reply without a brace pair that does not parse reports "no JSON object" |
| AgentCore.NewResponse | agent/core.py:17-23 | follow-up questions default to the empty list; the other fields are stored as given |
| AgentCore.Transition | agent/core.py:77-84 | REFINE merges into the accumulated filters; SEARCH leaves exactly the extracted keys; CLARIFY and CHITCHAT change nothing; extracted scalars override |
| AgentCore.TransitionWellFormed | agent/core.py:77-84 | every transition keeps the filters well typed |
| AgentCore.SearchKeepsEarlierScalars | agent/core.py:80-83 | an earlier price, rating or category filter survives a SEARCH turn |
| AgentCore.Keep | agent/core.py:118-121 | exactly the recommendations whose product is not rejected |
| AgentCore.KeepConcat | agent/core.py:118-121 | dropping rejected products keeps the relative order |
| AgentCore.KeepNothingRejected | agent/core.py:118-121 | with nothing rejected every recommendation is kept |
| AgentCore.WithoutRejected | agent/core.py:116-125 | the non-rejected recommendations, or all of them when every one is rejected |
| AgentCore.WithoutRejectedShape | agent/core.py:116-125 | nothing is invented, a non-empty list stays non-empty, and a rejected product is shown only when all are rejected |
| AgentCore.Respond | agent/core.py:131-139 | the response carries the reply's summary and questions, the turn's intent and filters, and the recommendations without rejected products |
| AgentCore.ReplyGrounded | agent/core.py:114 | a successful recommendation call returns one to five catalogue products |
| AgentCore.RespondGrounded | agent/core.py:116-125 | dropping rejected products keeps the response grounded |
| AgentCore.CatalogUpdateAsWritten | agent/core.py:99-100 | as written, any non-empty retrieval raises `AttributeError` |
| AgentCore.RetrievalAbortsTurnAsWritten | agent/core.py:99-100 | a retrieval of one product already aborts the turn |
| AgentCore.CatalogOf | agent/core.py:98-100 | the catalogue of the retrieved products holds exactly their ids, each naming a product with that id |
| AgentCore.CatalogOfLastWins | agent/core.py:98-100 | of several retrieved products sharing an id, the last one names it in the catalogue |
| AgentCore.CatalogAfterRetrieval | agent/core.py:98-100 | an empty retrieval keeps the catalogue; otherwise the retrieved products form a non-empty catalogue |
| AgentCore.RecommendationsFromRetrieved | agent/core.py:98-114 | after a non-empty retrieval, every recommended product is a retrieved one |
| AgentCore.Agent.constructor | agent/core.py:39-46 | a new agent has an empty session, the prompt builder over the given system prompt and mock catalogue, and the loaded catalogue |
| AgentCore.Agent.Process | agent/core.py:48-145 | the filters take the intent's transition and the rejected ids are unchanged; the catalogue takes the corrected update `CatalogAfterRetrieval` (see Findings), not the source's, which raises; `Err` exactly when the catalogue is empty, without recording the turn; otherwise the prompt is `PromptText` over the retrieved products, the reply is what `get_recommendations` gives for it (`Answered`), one turn (query, summary) is recorded, and the response has the turn's intent, the new filters and the reply's grounded recommendations without rejected products |
| AgentCore.Agent.Answer | agent/core.py:102-145 | after retrieval: `Err` exactly for an empty catalogue; otherwise the prompt is `PromptText`, the reply is `Answered` for it, one turn is recorded and the response is `Respond` of the reply |
| AgentCore.Agent.Finish | agent/core.py:116-145 | the rejected products are dropped, the turn (query, summary) is recorded in the last 10, and the response keeps the reply's grounding |
| AgentCore.Agent.Recommend | agent/core.py:102-114 | the prompt is `PromptText` over the retrieved products; the call fails exactly for an empty catalogue; otherwise at most three calls, every call before the last failed, and the reply validates the last call's reply or is the fallback, with grounded recommendations |
| AgentCore.Agent.UpdateContext | agent/core.py:76-84 | the context's filters take the intent's transition; history and rejected ids are unchanged |
| AgentCore.Agent.ResetSession | agent/core.py:147-149 | the session context is reset to empty |

## Left out

- Language-model calls, `PydanticOutputParser.parse` and `PromptTemplate.format`. The classifier's and the extractor's replies are parameters (`None` when the call or the parse fails). The recommendation model is a function from prompt and attempt number to an optional reply.
- `json.loads`, `json.dumps`, `float(..)` and the printing of numbers in the prompt. Each is a parameter.
- JSON values of unexpected types, such as a non-string name, reasoning or summary. The parsed reply is a typed view; only the type distinctions the code tests for are kept.
- ChromaDB, the embeddings, `RAGRetriever.retrieve` and the Groq retry with `time.sleep` in `_extract_attributes` (agent/rag_retriever.py:128-171). These are network and database I/O; the retriever is a parameter of `Agent.Process`, a function from the query and the filters to the products.
- agent/product_retriever.py is not part of this model. It is an HTTP adapter, and its keyword scan duplicates `_extract_features_from_doc`.
- The file loading in the constructors. The system prompt and the mock products are parameters of the `Agent` constructor, the client's catalogue is another, and the vague-term table is a constant.
- `AgentResponse.to_dict` (agent/core.py:25-33). It only copies the fields into a dictionary for JSON output.
- The regex engine. `_regex_extract` works on the numbers the two patterns would find (`QueryNumbers`). Its keyword tests are modelled.
- IEEE floating point. Prices, ratings, confidences and scores are `real`.
- Unicode. `lower`, `upper` and `strip` are modelled on ASCII letters and ASCII whitespace.
- The order of `list(set(..))`. Python leaves it unspecified; the model keeps first occurrences. The list properties are stated as sets and as freedom from duplicates.
- The arbitrary fallback product. It is "some catalogue member" (an existential), not a particular one.
- All `print` and `traceback` logging.
- The exception kinds inside the retry loop of `get_recommendations`. Every exception there is caught, so `Attempt` only reports that one occurred; the call, the extraction and the parse of attempt `a` are one value, `ReplyAt`.
- The rule-based product list of `PromptBuilder`. `process` always passes the retrieved list, so `Agent.Process` never consults it; `Build` and `GetTopProducts` model it.
- Agent.Process: applies the corrected catalogue update `CatalogAfterRetrieval` rather than the call at agent/core.py:99-100, which raises on every non-empty retrieval (see Findings); with the code as written, a turn reaches the prompt only when retrieval finds nothing.

## Findings

| source | as written | input that shows it | evidently intended | confidence | as-written member | corrected member |
|---|---|---|---|---|---|---|
| agent/core.py:99-100 | `process` calls `self.llm_client.update_product_catalog(...)`, which `LLMClient` does not define | any turn whose retriever returns at least one product: the call raises `AttributeError` and the turn aborts | validate recommendations against the retrieved products, so the model can recommend what it was shown | not executed | AgentCore.CatalogUpdateAsWritten, AgentCore.RetrievalAbortsTurnAsWritten | AgentCore.CatalogAfterRetrieval, AgentCore.RecommendationsFromRetrieved |
