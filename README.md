# Indienstein, modelled in Dafny

Indienstein is a browser application that generates game ideas. It draws one random word
("vector") from each of several themed "dimensions" of an information space and builds a prompt
from them. It sends the prompt to one of three OpenAI-compatible chat-completion providers and
streams the answer back. The finished idea is kept in the browser's local storage.

This project models the logic under the HTML rendering and proves what that logic guarantees.
The modelled parts are:

- the completion client (`AIService`): the settings record and the provider registry, settings
  validation, the request payload and headers, the plain and the streaming request, and the
  server-sent-events reader;
- the generation service (`IndiensteinService`): vector selection, prompt assembly, one streamed
  generation and the batch loop;
- the persistence service (`StorageService`): the inspiration list and the per-provider key map;
- the information space (`InfoSpace`) and its browser (`InfoSpaceModule`);
- the tab manager and its event bus;
- the dashboard's API-key panel;
- the generation page (`UI`): its flags and buttons, the dimension check boxes, the single and
  the batch generation handlers with the progress bar, and the bounded debug panel.

Each JavaScript class whose fields change becomes a Dafny `class` with those fields. This
covers the static `AIService`, `StorageService`, `InfoSpace`, `InfoSpaceModule`, `EventBus`,
`TabManager`, `DashboardModule` and the `UI` object. Loops become methods with invariants, proved
against specification functions. Pure expressions become functions.

Callbacks are modelled as the ordered list of events they receive. The network reply, the JSON
parser, `Math.random`, the clock and the fresh ids are parameters.

Modules, one per file:

| file | module | models |
|---|---|---|
| wrappers.dfy | Wrappers | `Option` and `Result` |
| text.dfy | Text | the JavaScript string operations used (`trim`, `split`, `includes`, `replace`, `substring`, `toLowerCase`, `parseInt`) |
| assoc.dfy | Assoc | objects as insertion-ordered key/value lists, for keys that are not array indices |
| seqs.dfy | Seqs | filtering, subsequences, de-duplication, a stable sort |
| records.dfy | Records | generation results and stored inspirations |
| info_space.dfy | InfoSpace | js/infoSpace.js |
| vector_browser.dfy | VectorBrowser | js/infoSpaceModule.js |
| ai_service.dfy | AiService | settings and registry of js/aiService.js |
| sse_stream.dfy | Sse | the stream reader of js/aiService.js |
| completion.dfy | Completion | `requestCompletion` and `requestCompletionStream` of js/aiService.js |
| storage.dfy | Storage | js/storageService.js |
| indienstein.dfy | Indienstein | js/indiensteinService.js |
| tab_manager.dfy | Tabs | js/tabManager.js |
| dashboard.dfy | Dashboard | js/dashboard.js |
| ui.dfy | Ui | js/ui.js |

## Model

| member | source | states |
|---|---|---|
| AiService.IsProviderSpec | js/aiService.js:18-52 | a name is a provider exactly when the registry has it. Every provider has an endpoint and at least one model, and its first model is its default model |
| AiService.RegistryWellFormed | js/aiService.js:8-52 | the registry has three distinct providers in declaration order, and the default settings name a known provider and its default model |
| AiService.ModelsForProvider | js/aiService.js:116-119 | `[]` for an unknown provider, otherwise that provider's (non-empty) model list |
| AiService.ApiEndpoint | js/aiService.js:155-159 | `''` for an unknown provider, otherwise the provider's non-empty endpoint |
| AiService.BuildRequestData | js/aiService.js:126-137 | the body copies the model, messages, temperature, `maxTokens` as `max_tokens` and `streamOutput` as `stream`, with no provider-specific field |
| AiService.RequestHeaders | js/aiService.js:143-149 | exactly two headers: `Content-Type: application/json`, then `Authorization` holding `Bearer ` followed by the key, which stripping the prefix gives back |
| AiService.HasApiKeySpec | js/aiService.js:165-168 | a key counts as set exactly when trimming it leaves something, that is, exactly when it is not blank |
| AiService.ValidationErrorsSpec | js/aiService.js:174-198 | no error exactly when the settings are valid. Each message is listed exactly when its check fails, in the order key, provider, model |
| AiService.Validate | js/aiService.js:174-198 | the accumulating method yields exactly the specified errors, and `valid` holds exactly for valid settings |
| AiService.MergeSpec | js/aiService.js:95-99 | `{...s, ...p}` decides each of the six fields on its own: the patch's value when the patch names it, the old value otherwise. The empty patch changes nothing, merging is idempotent, and merging saved settings restores them |
| AiService.KeyFor | js/aiService.js:416-434 | the in-settings key for the current provider, otherwise the stored key |
| AiService.SwitchPatchSpec | js/aiService.js:441-461 | a switch sets the provider, the given model or else the provider's default (one of its models), and `getApiKey(provider) \|\| ''`. It keeps temperature, token limit and stream flag, and settings with a non-blank key validate afterwards |
| AiService.AIService.constructor | js/aiService.js:8-15 | the class starts from the default settings, uninitialised |
| AiService.AIService.Init | js/aiService.js:57-82 | the saved settings are merged in the first time only |
| AiService.AIService.UpdateSettings | js/aiService.js:95-99 | the patch is merged over the initialised settings and the result is saved |
| AiService.AIService.ValidateSettings | js/aiService.js:174-198 | validation of the current settings, after initialisation |
| AiService.AIService.GetApiKey | js/aiService.js:416-434 | the key `KeyFor` specifies, read from the settings or from the storage service |
| AiService.AIService.SwitchProvider | js/aiService.js:441-461 | an unknown provider raises `不支持的供应商: <name>` and changes nothing. A known one merges the switch patch and saves |
| AiService.AIService.ResetSettings | js/aiService.js:466-478 | the defaults, and the saved entry removed |
| Sse.LineDelta | js/aiService.js:309-329 | a line yields a delta exactly when it starts with `data: `, its payload is not exactly `[DONE]`, the payload parses and its content is non-empty |
| Sse.DataLine | js/aiService.js:311-318 | the `[DONE]` comparison is exact: any other payload, including `[DONE]` with trailing white space, goes to the JSON step |
| Sse.LinesDeltas | js/aiService.js:309-329 | at most one delta per line, none of them empty |
| Sse.StreamDeltasAppend | js/aiService.js:299-307 | chunks are processed independently: the deltas of two bodies read in turn are the deltas of each |
| Sse.ConcatLength | js/aiService.js:321-324 | every delta adds at least one character to the accumulated content |
| Sse.ChunkOfOneLine | js/aiService.js:306-309 | a chunk without a line break is a single line |
| Sse.SplitLineIsLost | js/aiService.js:306-307 | a `data:` line cut by a chunk boundary yields no delta, where the same line in one chunk yields one |
| Sse.ReadStream | js/aiService.js:295-340 | the read loop's deltas are the per-chunk deltas in order, and its content is their concatenation |
| Sse.ReadLine | js/aiService.js:309-329 | one line appends its delta, if any, to the deltas and to the content |
| Completion.RequestFor | js/aiService.js:217-228 | the request goes to the provider's endpoint with the built headers and body, `stream` forced as given |
| Completion.ContentEvents | js/aiService.js:321-324 | one `onContent` per delta, in order |
| Completion.RequestCompletion | js/aiService.js:205-241 | invalid settings send nothing and throw the validation message. Otherwise one request with `stream: false` is sent, and the call settles with the parsed body, with or without a first choice, or throws the error of `fetch`, of a non-2xx status or of parsing |
| Completion.PlainCallSpec | js/aiService.js:234-265 | the plain request resolves exactly for a 2xx body that parses. Reading `choices[0].message.content` out of it succeeds exactly when the body has a first choice, and yields that choice's content. A body without one makes the read throw a `TypeError`, and any rejection is passed on unchanged |
| Completion.RequestCompletionStream | js/aiService.js:251-347 | the request sent, with `stream` equal to `streamOutput`, and the callbacks and outcome of `StreamCall` |
| Completion.PlainStream | js/aiService.js:261-273 | with streaming off: the plain request, then `onContent` and `onComplete` with its content |
| Completion.Streaming | js/aiService.js:275-346 | with streaming on: one request with `stream: true`, then the read loop |
| Completion.ReadReply | js/aiService.js:282-346 | the reply to the streaming request gives the events and outcome of `StreamingCall`, including a read that rejects partway through the body |
| Completion.ContentTextsOfDeltas | js/aiService.js:319-324 | the texts reported through `onContent` are the deltas |
| Completion.StreamingCallSpec | js/aiService.js:288-340 | a stream read to its end reports exactly the stream's deltas, in order, then completes exactly once with their concatenation and returns it. A non-2xx answer reports its error twice and throws |
| Completion.ReadFailureSpec | js/aiService.js:299-345 | when `reader.read()` rejects, the deltas read so far have all been reported through `onContent`, then the error is reported once and thrown, and `onComplete` is never called |
| Completion.StreamCallSpec | js/aiService.js:251-347 | invalid settings give one `onError` and a throw. A throwing `onComplete` makes the call throw. A returning call completed once, last, with what it returns, and with streaming off it reported that content once |
| Completion.StreamCallShape | js/aiService.js:251-347 | every streaming call has the shape the generation service relies on |
| Records.NewRecord | js/storageService.js:32-46 | a new record keeps the result's fields and gets the fresh id, the save time and reset metadata |
| Records.ApplyUpdateSpec | js/storageService.js:143-151 | each of the six top-level fields takes the update's value when the update names it and keeps its value otherwise. Without `metadata` in the update the metadata is kept. With it, each of `rating`, `isFavorite` and `tags` is overridden or kept in the same way. The merge is idempotent, and the empty update changes nothing |
| Storage.FindIndex | js/storageService.js:140 | `findIndex`: the first record with the id, or none has it |
| Storage.UpdatedSpec | js/storageService.js:138-158 | an update changes only the first record with the id and keeps the length. An unknown id changes nothing |
| Storage.DeletedSpec | js/storageService.js:165-178 | deleting removes exactly the first record with the id and keeps the others in order. An unknown id changes nothing |
| Storage.DeletedIsSubsequence | js/storageService.js:165-178 | the list after a delete is a subsequence of the list before |
| Storage.RatingUpdateSpec | js/storageService.js:198-202 | the stored rating is `max(0, min(5, rating))`, and nothing else of the record changes |
| Storage.FavoriteUpdateSpec | js/storageService.js:186-190 | the favourite flag changes, and nothing else of the record does |
| Storage.RecentSpec | js/storageService.js:86-95 | at most `count` records, newest first, taken from the list. A count covering the list gives the whole list reordered |
| Storage.RecentKeepsNewest | js/storageService.js:86-95 | the records kept are the newest: no record left out was created after a record kept |
| Storage.FavoritesSpec | js/storageService.js:101-104 | exactly the records marked favourite, in stored order |
| Storage.IdsOf | js/storageService.js:57-70 | the ids of the saved records, in order |
| Storage.BatchSavedLength | js/storageService.js:57-70 | a batch saves at most one record per item |
| Storage.BatchSavedFrom | js/storageService.js:62-67 | each saved record is a fresh record of a present item, under that item's id |
| Storage.BatchSavedAllPresent | js/storageService.js:57-70 | when every item is present, the batch saves all of them, in order |
| Storage.ApiKeyOf | js/storageService.js:242-245 | `apiKeys[provider] \|\| null`: only a non-empty stored key is returned |
| Storage.SaveThenGetApiKey | js/storageService.js:231-245 | after saving `k` for `p`, `p`'s key reads back as `k` (or `null` when `k` is empty), and other providers' keys are unchanged |
| Storage.WithoutApiKeySpec | js/storageService.js:261-269 | removal leaves the provider without a key and the others unchanged. Only a truthy entry is deleted |
| Storage.StorageService.constructor | js/storageService.js:7-15 | a service over empty storage |
| Storage.StorageService.SaveInspiration | js/storageService.js:22-50 | `null` saves nothing and returns `null`. Otherwise exactly one fresh record is appended and its id returned |
| Storage.StorageService.SaveBatchInspirations | js/storageService.js:57-70 | a non-array saves nothing. Otherwise one record is appended per present item, in order, and their ids are returned |
| Storage.StorageService.UpdateInspiration | js/storageService.js:138-158 | `true` exactly when a record has the id, and the list becomes `Updated` |
| Storage.StorageService.DeleteInspiration | js/storageService.js:165-178 | `true` exactly when a record has the id, and the list becomes `Deleted` |
| Storage.StorageService.SetInspirationFavorite | js/storageService.js:186-190 | the favourite update of the first record with the id |
| Storage.StorageService.SetInspirationRating | js/storageService.js:198-202 | the clamped rating update of the first record with the id |
| Storage.StorageService.SaveSettings | js/storageService.js:208-210 | the settings are stored, and nothing else changes |
| Storage.StorageService.GetSettings | js/storageService.js:216-224 | the saved settings, or the defaults when none are saved |
| Storage.StorageService.SaveApiKey | js/storageService.js:231-235 | the key map gains the provider's key, and nothing else changes |
| Storage.StorageService.RemoveApiKey | js/storageService.js:261-269 | `true` exactly when a truthy key was stored, and the map becomes `WithoutApiKey` |
| Storage.StorageService.RemoveItem | js/storageService.js:8-14 | removing a storage entry clears exactly the value kept under that key |
| Storage.StorageService.ClearAllData | js/storageService.js:330-341 | everything is cleared exactly when no confirmation is asked or it is given. Otherwise nothing changes |
| InfoSpace.Keyed | js/infoSpace.js:22-482 | the table stores each dimension under its own id, in order |
| InfoSpace.SampleTableShape | js/infoSpace.js:22-482 | the built-in table has the six dimensions in order, with unique keys, each id equal to its key |
| InfoSpace.Space.constructor | js/infoSpace.js:6-11 | the object starts with no dimensions |
| InfoSpace.Space.LoadDimensionData | js/infoSpace.js:20-482 | the table becomes the built-in one |
| InfoSpace.Space.Init | js/infoSpace.js:13-18 | after `init` the table is the built-in one |
| InfoSpace.AllDimensions | js/infoSpace.js:491-493 | every dimension of the table, in key order |
| InfoSpace.GetDimension | js/infoSpace.js:500-502 | the dimension stored under the id, or `null` exactly when there is none |
| InfoSpace.VectorsFromDimension | js/infoSpace.js:544-547 | the dimension's vectors, `[]` for an unknown id |
| InfoSpace.RandomIndex | js/infoSpace.js:517 | `floor(r * n)` lies in `[0, n)` |
| InfoSpace.RandomIndexReaches | js/infoSpace.js:517 | every index can be drawn |
| InfoSpace.RandomVector | js/infoSpace.js:510-519 | `null` exactly for an unknown or empty dimension, otherwise one of its vectors, the one at index `floor(r * length)` |
| InfoSpace.RandomVectorReaches | js/infoSpace.js:510-519 | every vector of a dimension is drawn for some value of `Math.random()`: `j / n` draws the one at index `j` |
| InfoSpace.SelectFromDimensions | js/infoSpace.js:526-537 | the loop builds the specified selection |
| InfoSpace.SelectedKeys | js/infoSpace.js:526-537 | the keys are exactly the requested ids with vectors, each once |
| InfoSpace.SelectedValues | js/infoSpace.js:526-537 | each chosen vector belongs to the dimension it is keyed by |
| InfoSpace.SelectedLastWins | js/infoSpace.js:529-534 | for a repeated id, the pick made at its last occurrence wins |
| InfoSpace.RoundDiv | js/infoSpace.js:559 | `Math.round(n / d)` is the nearest whole number, halves rounded up |
| InfoSpace.DimensionStats | js/infoSpace.js:553-562 | the dimension count, the sum of vector counts, and their rounded average (`NaN` for no dimension) |
| VectorBrowser.FilterVectors | js/infoSpaceModule.js:233-248 | with no query and no tag, every vector is kept. The kept vectors are exactly those passing the search and tag tests |
| VectorBrowser.FilterVectorsKeepsOrder | js/infoSpaceModule.js:233-248 | the shown vectors are a subsequence of the dimension's vectors |
| VectorBrowser.FlatTagsMember | js/infoSpaceModule.js:487-495 | a tag is listed exactly when some vector carries it |
| VectorBrowser.ExtractAllTags | js/infoSpaceModule.js:487-495 | the loop yields the tags de-duplicated in first-seen order |
| VectorBrowser.AllTagsSpec | js/infoSpaceModule.js:487-495 | the tag list has no duplicates and covers exactly the tags the vectors carry |
| VectorBrowser.CountIntoAppend | js/infoSpaceModule.js:368-380 | counting in two parts is counting the whole |
| VectorBrowser.CountIntoKeys | js/infoSpaceModule.js:368-380 | the frequency table has one entry per distinct tag, in first-seen order |
| VectorBrowser.BumpGet | js/infoSpaceModule.js:375 | one more occurrence raises that tag's count by one and changes nothing else |
| VectorBrowser.CountIntoCount | js/infoSpaceModule.js:368-380 | each count is the tag's number of occurrences |
| VectorBrowser.CountIntoGet | js/infoSpaceModule.js:368-380 | exactly the occurring tags have an entry, holding their number of occurrences |
| VectorBrowser.CountIntoUnique | js/infoSpaceModule.js:368-380 | the frequency table never lists a tag twice |
| VectorBrowser.TagFrequency | js/infoSpaceModule.js:368-380 | the three nested loops count every tag of every vector of every dimension |
| VectorBrowser.CountVectors | js/infoSpaceModule.js:371-378 | the loop over one dimension's vectors counts their tags |
| VectorBrowser.CountTags | js/infoSpaceModule.js:373-377 | the loop over one vector's tags counts them |
| VectorBrowser.TopTagsOrdered | js/infoSpaceModule.js:382-384 | at most eight tags, in non-increasing count order |
| VectorBrowser.TopTagsCounts | js/infoSpaceModule.js:382-384 | each tag shown comes with its true number of occurrences |
| VectorBrowser.TopTagsCutOff | js/infoSpaceModule.js:382-384 | an entry left off counts no more than the last shown, and then eight are shown |
| VectorBrowser.TopTagsMostFrequent | js/infoSpaceModule.js:382-384 | a tag left off occurs no more often than the last tag shown, and then eight are shown |
| VectorBrowser.ByTagCountDescendingIsPreorder | js/infoSpaceModule.js:519-522 | the tag-count comparator is a total preorder |
| VectorBrowser.SortedTableKeeps | js/infoSpaceModule.js:508-530 | sorting keeps every dimension and its order, and only permutes the selected dimension's vectors |
| VectorBrowser.SortedTableOrders | js/infoSpaceModule.js:508-530 | `name` leaves the vectors in collation order, and `tags` in non-increasing tag count |
| VectorBrowser.Browser.constructor | js/infoSpaceModule.js:6-11 | no dimension selected, empty query, no filter tag |
| VectorBrowser.Browser.Initialize | js/infoSpaceModule.js:16-30 | initialisation sets the flag and changes no other field |
| VectorBrowser.Browser.SelectDimension | js/infoSpaceModule.js:86-92 | the dimension is selected and the query cleared, and the filter tags are kept |
| VectorBrowser.Browser.HandleSearchInput | js/infoSpaceModule.js:500-503 | the field's text becomes the query, and nothing else changes |
| VectorBrowser.Browser.FilterByTag | js/infoSpaceModule.js:535-540 | the tag is added unless already present, and nothing else changes |
| VectorBrowser.Browser.ClearFilters | js/infoSpaceModule.js:545-551 | the query becomes empty and the tag list empty |
| VectorBrowser.Browser.SearchByTag | js/infoSpaceModule.js:658-664 | the tag becomes the only filter and the query is cleared |
| VectorBrowser.Browser.View | js/infoSpaceModule.js:201-248 | a placeholder without a selection, "no data" for an unknown dimension, otherwise the filtered vectors with the total count |
| VectorBrowser.Browser.HandleSortChange | js/infoSpaceModule.js:508-530 | the shared table becomes the sorted table for the selected dimension |
| VectorBrowser.AddFilterTagSpec | js/infoSpaceModule.js:535-540 | adding a tag is idempotent, the tag is then present, and a duplicate-free list stays duplicate-free |
| Indienstein.SelectFromDimensionIds | js/indiensteinService.js:23-38 | the loop builds the specified selection, `{}` for a missing or empty list |
| Indienstein.IdSelectionSpec | js/indiensteinService.js:23-38 | the keys are exactly the requested ids with vectors, each once, and each value comes from its own dimension |
| Indienstein.DimensionIds | js/indiensteinService.js:46-47 | the ids of all dimensions, in table order |
| Indienstein.SelectFromAllDimensions | js/indiensteinService.js:45-49 | the selection from every dimension's id |
| Indienstein.AllSelectionSpec | js/indiensteinService.js:45-49 | over a well-formed table it picks every dimension with vectors, and only those |
| Indienstein.BuildPrompt | js/indiensteinService.js:57-89 | the `+=` loop builds the specified prompt |
| Indienstein.AppendEntry | js/indiensteinService.js:61-70 | one turn of the loop appends that entry's text |
| Indienstein.PromptShape | js/indiensteinService.js:57-89 | the prompt opens with the header and ends with the closing. A blank user prompt adds nothing, and a non-blank one adds its section just before the closing |
| Indienstein.EntryTextSpec | js/indiensteinService.js:61-70 | an unknown dimension adds nothing. A known one adds its `【name】: vector` line, the description line exactly when there is a description, and a blank line |
| Indienstein.EntriesTextSkipsUnknown | js/indiensteinService.js:62-63 | entries of unknown dimensions are skipped |
| Indienstein.EntriesTextAppend | js/indiensteinService.js:61-70 | the entries' texts follow the selection's order |
| Indienstein.GenerateInspirationStream | js/indiensteinService.js:100-154 | the method gives the specified generation over the completion call |
| Indienstein.Settle | js/indiensteinService.js:138-153 | once the call settles: the result from the final content, or the error reported and `null` |
| Indienstein.FinishSpec | js/indiensteinService.js:123-153 | a result carries the completed content, the selection, the user prompt, the time and `ai-service`. No result means an error was reported last. Invalid settings are reported twice, and a throwing `onComplete` loses the result |
| Indienstein.GenerateSpec | js/indiensteinService.js:100-154 | an empty selection reports one error, sends nothing and returns `null`. Otherwise the prompt is sent, and any result has a non-empty selection |
| Indienstein.ItemEvents | js/indiensteinService.js:243-247 | the per-item wrappers forward content and errors under the item's index |
| Indienstein.GenerateItem | js/indiensteinService.js:232-247 | one item is a fresh selection and a generation |
| Indienstein.GenerateBatchInspiration | js/indiensteinService.js:215-270 | `null` config gives `[]`. Otherwise the loop's results and callbacks are `BatchResults` and `BatchTrace` over `count \|\| 3` items |
| Indienstein.BatchStep | js/indiensteinService.js:229-262 | one more item adds its result, if any, its events, a progress report and a pause |
| Indienstein.ItemGenerationSpec | js/indiensteinService.js:240-246 | every item's result is well formed, and an item whose `onComplete` throws has none |
| Indienstein.BatchResultsFrom | js/indiensteinService.js:250-252 | each returned result is the result of an earlier item, in order |
| Indienstein.BatchResultsLength | js/indiensteinService.js:227-269 | at most one result per item, exactly one when every item succeeds, none when none does |
| Indienstein.BatchResultsSpec | js/indiensteinService.js:215-270 | a batch returns at most `n` results, each a well-formed service result with the configured user prompt |
| Indienstein.BatchWithCompletionCallbackIsEmpty | js/indiensteinService.js:240-246 | when the caller passes `onItemComplete`, no item produces a result |
| Indienstein.NoItemComplete | js/indiensteinService.js:244-246 | `onItemComplete` is never reached |
| Indienstein.GenerateBatchInspirationIntended | js/indiensteinService.js:215-270 | with the completion report after the result, the batch returns every item's result and reports it |
| Indienstein.IntendedStep | js/indiensteinService.js:229-262 | one more item of the corrected loop adds its events, completion report, progress and pause |
| Indienstein.IntendedCompletions | js/indiensteinService.js:240-252 | an item reports completion only with its own result, and a failed item never does |
| Indienstein.IntendedReportsEveryResult | js/indiensteinService.js:240-252 | every item with a result reports it under its index |
| Indienstein.BatchSchedule | js/indiensteinService.js:229-262 | whatever the items do, the progress reports and pauses follow the fixed schedule |
| Indienstein.PacingSpec | js/indiensteinService.js:255-260 | one progress report per item and, with a positive delay, one pause fewer than items |
| Indienstein.DelayBetweenRequestsIgnored | js/indiensteinService.js:225 | `delayBetweenRequests` plays no part in the schedule or the count |
| Indienstein.PacingUnchanged | js/indiensteinService.js:221-225 | the schedule depends only on `count` and `delay` |
| Indienstein.BatchDefaults | js/indiensteinService.js:221-225 | a missing or zero count gives three items. A missing or zero delay gives one-second pauses |
| Tabs.Deliver | js/tabManager.js:673-683 | every listener is called once with the data, in order |
| Tabs.WithoutSpec | js/tabManager.js:664-668 | removing a listener drops every occurrence of it and keeps the others in order |
| Tabs.OffUndoesOn | js/tabManager.js:654-668 | `off` undoes an `on` of a new listener |
| Tabs.EventBus.constructor | js/tabManager.js:647-649 | no event has listeners |
| Tabs.EventBus.On | js/tabManager.js:654-659 | the callback goes last in that event's list, which is created if absent. Other events are untouched |
| Tabs.EventBus.Off | js/tabManager.js:664-668 | every occurrence leaves that event's list only. An unknown event is left alone |
| Tabs.EventBus.Emit | js/tabManager.js:673-683 | each listener is called with the data in registration order, and a throwing one does not stop the next |
| Tabs.EventBus.Clear | js/tabManager.js:688-690 | no event keeps a listener |
| Tabs.SwitchEmissionsSpec | js/tabManager.js:130-154 | a switch emits `beforeTabSwitch` with the old and new tab first, and `afterTabSwitch` with the new tab in all three fields last. `tab:activated` is emitted unless the module's initialisation threw |
| Tabs.TabManager.constructor | js/tabManager.js:6-39 | the dashboard tab is active, no module is attached, and the bus is empty |
| Tabs.TabManager.InitializeModules | js/tabManager.js:84-112 | each loaded module is attached to its tab |
| Tabs.TabManager.GetModule | js/tabManager.js:580-582 | the module, or `null` for a tab without one |
| Tabs.TabManager.SwitchTab | js/tabManager.js:117-161 | an unknown or already-active tab changes and emits nothing. Any other becomes active, is saved, and the switch is announced |
| Tabs.TabManager.Leave | js/tabManager.js:130-139 | the part of a switch before `activeTab` changes: `beforeTabSwitch` and `tab:deactivated` |
| Tabs.TabManager.Fire | js/tabManager.js:673-683 | one emission is delivered after the earlier ones |
| Tabs.TabManager.LoadUserPreferences | js/tabManager.js:559-568 | only a saved tab that is known becomes active |
| Dashboard.MaskSpec | js/dashboard.js:149-151 | the first eight and last four characters around `...`. A key of twelve characters or more shows fifteen |
| Dashboard.DisplayedKey | js/dashboard.js:149-151 | `''` exactly when no key is configured |
| Dashboard.DefaultModel | js/dashboard.js:460-467 | `'default'` exactly for an unknown provider |
| Dashboard.DisplayName | js/dashboard.js:472-479 | the raw id for an unknown provider |
| Dashboard.DisplayNameAgrees | js/dashboard.js:472-479 | the displayed names are the registry's |
| Dashboard.ConnectionTestSpec | js/dashboard.js:418-455 | a key under ten characters fails as malformed. A probe error naming `401` or `Unauthorized` fails as expired. Anything else succeeds, and without the probe method only the length decides |
| Dashboard.LegacyKeyIsNotAServiceKey | js/dashboard.js:358 | the key `clearApiKey` removes is none of the storage service's keys |
| Dashboard.DashboardModule.constructor | js/dashboard.js:6-10 | the module over its storage service |
| Dashboard.DashboardModule.SaveApiKey | js/dashboard.js:320-347 | a missing or blank entry saves nothing. Otherwise the trimmed entry becomes the provider's key |
| Dashboard.DashboardModule.ClearApiKey | js/dashboard.js:352-371 | as written, the provider's stored key survives; only the unrelated entry goes |
| Dashboard.DashboardModule.ClearApiKeyIntended | js/dashboard.js:352-371 | with the key map's entry removed, the provider has no key and the others keep theirs |
| Dashboard.DashboardModule.TestConnection | js/dashboard.js:376-413 | no test without a stored key, otherwise the connection test's verdict |
| Ui.DimensionsOf | js/ui.js:229 | what follows `check_` in each box id |
| Ui.CheckedIdsSpec | js/ui.js:223-236 | the selected dimensions are the checked boxes' dimensions, in document order |
| Ui.BoxesFor | js/ui.js:160-173 | one box per dimension |
| Ui.BoxesForPrefixed | js/ui.js:173 | each box id is `check_` followed by its dimension's id |
| Ui.WithAll | js/ui.js:201-218 | setting every `checked` property keeps the boxes |
| Ui.AllCheckedSelectsAll | js/ui.js:201-208 | with every box checked, every box's dimension is selected, in order |
| Ui.AllChecked | js/ui.js:194-208 | after setup, every dimension of the list is selected |
| Ui.UncheckedSelectsNothing | js/ui.js:212-218 | with no box checked, nothing is selected |
| Ui.AddedSpec | js/ui.js:959-987 | the panel never holds more than 100 entries, and the new entry is last. A lone placeholder is replaced, and a panel with room grows by one |
| Ui.LoggedSpec | js/ui.js:959-987 | any number of additions keeps the panel within 100 entries, and the last note added is shown last |
| Ui.DebugPanel.constructor | js/ui.js:991-993 | the panel starts as the placeholder |
| Ui.DebugPanel.AddDebugInfo | js/ui.js:959-987 | the `while` loop leaves exactly the specified panel |
| Ui.DebugPanel.AddAll | js/ui.js:959-987 | the notes are added in turn |
| Ui.DebugPanel.ClearDebugInfo | js/ui.js:991-993 | the panel becomes the single placeholder |
| Ui.CallbackNotes | js/ui.js:339-349 | at most one note per callback event |
| Ui.SuccessLoggedAsError | js/ui.js:352-360 | as written, a successful generation ends with an error entry `生成异常`. Without the failing save only the start, the request and the callbacks' notes are logged |
| Ui.LoggedAppend | js/ui.js:959-987 | logging two lists in turn logs their concatenation |
| Ui.BatchCount | js/ui.js:396 | `parseInt(...) \|\| 3` is never 0 and is 3 for `NaN` |
| Ui.BatchCountOfField | js/ui.js:396 | a count shown in the field is read back as itself, except 0, which gives 3 |
| Ui.DelayFieldIgnored | js/ui.js:412-417 | as written, every pause between items lasts one second, whatever the delay field holds |
| Ui.BatchConfigIntended | js/ui.js:412-417 | the corrected configuration carries the count, the selection, the prompt and the delay under `delay` |
| Ui.DelayFieldHonoured | js/ui.js:397 | with the corrected configuration the pauses last what the field says, one second for an empty or zero field |
| Ui.PercentSpec | js/ui.js:491 | the width is the nearest whole percentage, halves rounded up. It stays within 0 and 100 and reaches 100 at the last index |
| Ui.PercentMonotone | js/ui.js:491 | a later item never shows less progress |
| Ui.LastReport | js/ui.js:488-492 | the last progress report the bar can show has a non-zero total |
| Ui.ArraySetSpec | js/ui.js:475 | `arr[i] = r` holds `r` at `i`, keeps the other elements, and leaves holes `undefined` |
| Ui.ShownSuffix | js/ui.js:488-492 | events without a progress report leave the bar alone |
| Ui.RecordedSuffix | js/ui.js:463-476 | events without a completion report leave the results alone |
| Ui.ItemQuiet | js/ui.js:448-487 | an item's forwarded events and pauses carry no progress or completion report |
| Ui.ReportShown | js/ui.js:488-492 | the bar shows the last report |
| Ui.ReportRecorded | js/ui.js:463-476 | a progress report does not touch the results |
| Ui.WrittenBatchSeen | js/ui.js:463-492 | as written, the bar ends at the last item's report and no result is recorded |
| Ui.IntendedItemSeen | js/ui.js:463-492 | in the corrected batch, one item sets the bar and records its result, if any |
| Ui.IntendedBatchSeen | js/ui.js:463-492 | in the corrected batch, the bar ends at the last item's report and every item's result is recorded under its index |
| Ui.RecordsNext | js/ui.js:475 | recording item `i`'s result extends the records by one item |
| Ui.Present | js/ui.js:497-500 | the service's results as the elements the storage service reads |
| Ui.FullAtTheEnd | js/ui.js:488-492 | after a last report for the last item, the bar is full, and empty without a report |
| Ui.WrittenBatchOutcome | js/ui.js:447-500 | as written, the batch returns `[]`, no result is recorded, and the bar ends full exactly when the count is positive |
| Ui.IntendedBatchOutcome | js/ui.js:447-500 | in the corrected batch, the results array holds each item's result and the bar ends full exactly when the count is positive |
| Ui.Defined | js/ui.js:475 | the array's defined elements, in index order |
| Ui.RecordsDefined | js/ui.js:463-500 | the results array, read in index order, holds the results the service returns |
| Ui.RunPageBatch | js/ui.js:447-492 | the page's run of the batch as written: no result, none recorded, and the bar full exactly for a positive count |
| Ui.RunPageBatchIntended | js/ui.js:447-492 | the corrected batch fills the results array with the returned results, and the bar as before |
| Ui.Page.constructor | js/ui.js:11-19 | after setup every dimension is checked and selected, nothing is drawn or generated, and the buttons match the state |
| Ui.Page.UpdateGenerateButton | js/ui.js:241-247 | the generate button is disabled exactly while generating or without vectors, the batch button exactly while a batch runs or without a selected dimension |
| Ui.Page.UpdateSelectedDimensions | js/ui.js:223-236 | the loop selects the checked boxes' dimensions in order, and the buttons follow |
| Ui.Page.CheckAll | js/ui.js:201-218 | every box gets the given `checked`, and the selection follows |
| Ui.Page.SelectAllDimensions | js/ui.js:201-208 | every box is checked and every dimension selected |
| Ui.Page.DeselectAllDimensions | js/ui.js:212-218 | nothing is selected, and the batch button is disabled |
| Ui.Page.ToggleDimension | js/ui.js:179-185 | a row click flips one box, and the selection follows |
| Ui.Page.SetupDimensionsList | js/ui.js:156-197 | one box `check_<id>` per dimension in table order, all selected |
| Ui.Page.RandomSelectVectors | js/ui.js:252-261 | with no dimension selected it only warns and keeps the vectors. Otherwise it draws from the selected dimensions |
| Ui.Page.GenerateClickAsWritten | js/ui.js:293-304 | as written, a click returns at a guard exactly while a generation runs or no vector is drawn. Otherwise it rejects with the `TypeError` of `checkApiSettings` and changes nothing |
| Ui.Page.BeginGeneration | js/ui.js:293-322 | nothing happens while generating, without vectors or without settings. Otherwise the flag is set, the button disabled, and the start and the request logged |
| Ui.Page.FinishGeneration | js/ui.js:352-364 | as written: the result becomes current, the callbacks' notes and the save's exception are logged, the flag is cleared and the button enabled |
| Ui.Page.GenerateInspiration | js/ui.js:293-364 | the generation runs exactly when the guards pass, and it is the service's. Its result becomes current, all its notes are logged in order, and the flag is cleared |
| Ui.Page.FinishGenerationIntended | js/ui.js:352-364 | with a working save, the result is stored as one fresh record and no exception is logged |
| Ui.Page.GenerateInspirationIntended | js/ui.js:293-364 | as `GenerateInspiration`, with each result stored and no exception logged |
| Ui.Page.BatchClickAsWritten | js/ui.js:383-394 | as written, a click returns at a guard exactly while a batch runs or no dimension is selected. Otherwise it rejects with the `TypeError` of `checkApiSettings` and changes nothing |
| Ui.Page.BeginBatch | js/ui.js:383-417 | nothing happens while a batch runs, without a selected dimension or without settings. Otherwise the flag is set, the bar and results are emptied, and the configuration is built |
| Ui.Page.ApplyBatchEvents | js/ui.js:463-492 | the callbacks set the bar from progress reports and store each completion's result under its index |
| Ui.Page.StartBatchGeneration | js/ui.js:383-510 | as written: no result is recorded or saved, the bar ends full exactly for a positive count, and the flag is cleared |
| Ui.Page.StartBatchGenerationIntended | js/ui.js:383-510 | corrected: the results array holds the service's results in order, they are appended to storage, and the bar and the flag behave as before |
| Text.TrimEmptyIffBlank | js/aiService.js:165-168 | `s.trim()` is empty exactly when every character of `s` is white space |
| Text.Split | js/aiService.js:307 | `chunk.split('\n')` yields at least one part, and no part holds a line break |
| Text.JoinSplit | js/aiService.js:307 | splitting a chunk into lines loses nothing: joining the lines with `\n` restores it |
| Text.ReplaceFirstPrefix | js/ui.js:229 | replacing `check_` at the front of a box id with `''` gives back the dimension id |
| Text.ToLower | js/infoSpaceModule.js:238-239 | `toLowerCase` keeps the length and maps each character on its own |
| Text.ParseIntOfNat | js/ui.js:396 | `parseInt` reads back every whole number as it is printed |
| Seqs.Filter | js/infoSpaceModule.js:233-248 | `filter` keeps exactly the elements passing the test, and no more of them than there were |
| Seqs.FilterIsSubsequence | js/infoSpaceModule.js:233-248 | a filtered list is a subsequence of the original |
| Seqs.Take | js/storageService.js:94 | `slice(0, count)` is the first `min(count, length)` elements |
| Seqs.DedupSpec | js/infoSpaceModule.js:487-495 | `Array.from(new Set(...))` has no duplicates and holds exactly the elements given |
| Seqs.SortBy | js/infoSpaceModule.js:508-530 | sorting permutes the list |
| Seqs.SortBySorted | js/infoSpaceModule.js:508-530 | under a total preorder, the sorted list is ordered by it |
| InfoSpace.SampleKeysUnique | js/infoSpace.js:22-482 | the built-in table's dimension keys are distinct |

## Left out

- Rendering is not modelled: HTML templates, Bootstrap components, notifications and event-listener wiring. The same goes for `renderDimensionDetails`, `renderDataStats` beyond its tag counting, `displaySelectedVectors`, `showBatchResult`, the help and about pages, and the quick-settings dialog.
- `fetch`, `getReader` and `TextDecoder` are not modelled. The response body is a sequence of already-decoded chunks, optionally followed by the error a read rejects with, so UTF-8 decoding across chunk boundaries is not modelled.
- Sse.SplitLineIsLost: the reader keeps no buffer between chunks, so an event line cut by a chunk boundary is lost. This is stated as a property of the reader, not as a bug, since servers usually send whole lines.
- `JSON.parse` and `JSON.stringify` are an extractor parameter and the identity. localStorage is a set of class fields, and any other storage entry is a key in `items`.
- `Math.random`, `generateUniqueId`, `new Date()` and `toLocaleTimeString()` are parameters: random draws, fresh ids, a time in milliseconds and a time string.
- Ui.DebugPanel.AddAll: all the debug notes of one handler share one time string, where the page reads the clock once per `addDebugInfo` call. The same holds for Ui.Page.BeginGeneration, Ui.Page.FinishGeneration and Ui.Page.FinishGenerationIntended, so entries logged across a slow request show the same time.
- Records.NewRecord: `createdTime` is a number of milliseconds, not an ISO 8601 string. Newest-first order compares these numbers, as `new Date` does on the strings.
- `setTimeout` pauses are events in the batch trace, not waits. The loop's awaits are modelled in order, with no other handler running between them.
- Ui.Page.GenerateInspiration: the handler is split into `BeginGeneration` and `FinishGeneration`. Another click that arrives while the request is pending is modelled by calling `BeginGeneration` again.
- Floating point is not modelled. The temperature is a `real` that is only copied. The delay field is read as a whole number of seconds (`BatchDelay`), while `parseFloat` allows fractions. The batch percentage is exact rational rounding.
- Ui.BatchCount takes the value `parseInt` reads from the field rather than the text. `Ui.BatchCountOfField` connects the two for decimal numbers.
- Ui.LastReport: a report with a total of 0 would give an infinite width, which the style ignores. It cannot happen, since the count is never 0. A negative count gives no report at all.
- String lengths count characters rather than UTF-16 code units. `toLowerCase` folds ASCII letters only.
- AiService.IsProviderSpec: a name is a provider only when it is one of the three registry keys. `this.providers[name]` at js/aiService.js:117, 157 and 187 also finds names inherited from `Object.prototype`, such as `constructor` or `toString`. The model treats those names as unknown providers.
- AiService.AIService.SwitchProvider: the guard at js/aiService.js:444 lets an `Object.prototype` name through. The model refuses it as an unknown provider.
- Storage.ApiKeyOf: `apiKeys[provider] || null` at js/storageService.js:244 returns an inherited function for an `Object.prototype` name. The model returns `null`.
- InfoSpace.GetDimension: `this.dimensions[id] || null` at js/infoSpace.js:501 returns an inherited function for an `Object.prototype` name. The model treats the id as unknown.
- VectorBrowser.TagFrequency: `tagFrequency[tag] || 0` at js/infoSpaceModule.js:375 starts from an inherited function for a tag named after an `Object.prototype` member. A tag `constructor` then counts as a string rather than a number. The model counts every tag from 0.
- Storage.StorageService.SaveBatchInspirations: every record of one batch gets the same `createdTime`, the single `now` given. The source reads the clock once per item (js/storageService.js:35, reached through js/storageService.js:63), so records saved across a clock tick differ in time.
- Completion.RequestCompletion: the parsed body is abstracted to the content of its first choice. A first choice whose `message.content` is not a string is not modelled.
- Tabs.TabManager.SwitchTab: the guard at js/tabManager.js:118 accepts an `Object.prototype` name. The model treats the name as an unknown tab. The same holds for Tabs.TabManager.LoadUserPreferences, whose guard at js/tabManager.js:563 also accepts such a saved name.
- Dashboard.DefaultModel: `models[provider] || 'default'` at js/dashboard.js:466 returns an inherited function for an `Object.prototype` name. The model returns `'default'`.
- Dashboard.DisplayName: `names[provider] || provider` at js/dashboard.js:478 returns an inherited function for an `Object.prototype` name. The model returns the name itself.
- Ui.ColorClass: looking up a type named after an `Object.prototype` member, such as `constructor`, is not modelled. Such a type falls to `text-muted`.
- `checkApiSettings` is the boolean `hasApiKey` in the handlers the rest of the model uses. Its body calls `AIService` methods that js/aiService.js does not define (`getCurrentApiKey` and others). As written, it therefore throws, and every generate or batch click that passes the first two guards rejects before any state changes (Ui.Page.GenerateClickAsWritten, Ui.Page.BatchClickAsWritten and the js/ui.js:644-645 finding). The handlers built on `hasApiKey` describe the page once that check is repaired. The warning and the switch to the overview tab on a missing key are not modelled. The same applies to `resetTemperatureAndTokens`, `updateApiKey` and `getApiKeysStatus`.
- Tabs.TabManager.InitializeModules: the tab manager's `initialize` (DOM binding and startup) is not modelled. Neither are `bindEvents` or the self-calling `saveQuickSettings` override at js/tabManager.js:697-699.
- Tabs.EventBus.Emit: a listener is identified by its identity and reduced to whether it throws. A listener that calls back into the bus is not modelled.
- `mockGenerateInspiration` and its fallback when `AIService` is missing are not modelled: they are a development stub.
- Downloads are not modelled: `exportInspirations`, `exportInspirationAsText`, `exportDimensionData` and the batch export.
- Not modelled: `getHistory`, `getInspirationById`, `getStorageStats` and `getStorageUsage`. Nothing in the modelled core reads them.
- `getConfigSummary`, `getAllProviders` and `testConnection` of `AIService` are not modelled: they are read-only reports.
- Only a sample of the built-in vocabulary is modelled. The built-in table keeps the six dimensions with a few vectors each.
- VectorBrowser.Browser.HandleSortChange: `Array.prototype.sort` is modelled as a stable insertion sort on the vector list, and `localeCompare` is a collation parameter. The `random` order depends on a comparison parameter.
- A JavaScript array with holes is a sequence of `Option` values, with holes as `None`.
- Object keys that are array indices, such as `"0"` or `"42"`, are not modelled. JavaScript lists such keys first, in ascending numeric order, before all other keys, while `Assoc.Put` always appends a new key. No key the application uses is of that form: provider names, dimension ids, tags and event names are not numbers.
- Completion.RequestCompletionStream: only `onComplete` may throw. A throwing `onContent` or `onError` is not modelled. The callbacks the generation service and the page pass only record results, update the page or log.
- js/main.js is not part of this model.

## Findings

| source | as written | input that shows it | evidently intended | confidence | as-written member | corrected member |
|---|---|---|---|---|---|---|
| js/indiensteinService.js:240-246 | the `onComplete` wrapper calls `onItemComplete?.(i, result)` while `const result` is still uninitialised. That throws a `ReferenceError`, so the completion request and then `generateInspirationStream` catch it and return `null` | a batch of any count whose requests all succeed, started by the page, which passes `onItemComplete`: the batch returns `[]`, and no item is shown complete or saved | each item reports completion with its result and the batch returns every result | high (not executed) | Indienstein.BatchWithCompletionCallbackIsEmpty | Indienstein.GenerateBatchInspirationIntended |
| js/ui.js:355 | `StorageService.saveInspiration(result)` calls an instance method on the class, which throws a `TypeError`. The `catch` replaces the shown result with an error, and nothing is stored | once `checkApiSettings` is repaired, any successful single generation: the debug panel ends with `生成异常: ...` and storage is unchanged | the result is saved through a storage service instance | high (not executed) | Ui.SuccessLoggedAsError | Ui.Page.GenerateInspirationIntended |
| js/ui.js:463-476 | as a consequence of the first finding, the page's `batchResults` stays empty and the save guarded at js/ui.js:499 is never reached. Even when reached, `StorageService.saveBatchInspirations(results)` at js/ui.js:500 calls an instance method on the class, the same `TypeError` as js/ui.js:355. The corrected member fixes both | once `checkApiSettings` is repaired, a batch of three successful requests: `batchResults == []` and the bar ends at 100% | the results array holds each result and the batch is saved | high (not executed) | Ui.Page.StartBatchGeneration | Ui.Page.StartBatchGenerationIntended |
| js/dashboard.js:358 | `clearApiKey` removes `indienstein_api_key_<provider>`, but keys are kept under `indienstein_api_keys` | clear the key of `deepseek` after saving one: `getApiKey('deepseek')` still returns it | the provider's entry of the key map is removed | high (not executed) | Dashboard.DashboardModule.ClearApiKey | Dashboard.DashboardModule.ClearApiKeyIntended |
| js/ui.js:644-645 | `checkApiSettings` starts by calling `AIService.getCurrentApiKey()`, which the AI service class does not define. The call sits outside any `try`, at js/ui.js:303 and js/ui.js:392, so it throws a `TypeError` and the click handler's promise rejects | any click on the generate button with vectors drawn, or on the batch button with a dimension selected: nothing starts and the page state is unchanged | the handler goes on exactly when an API key is set for the current provider | high (not executed) | Ui.Page.GenerateClickAsWritten | Ui.Page.BeginGeneration |
| js/ui.js:416 | the page passes the delay as `delayBetweenRequests`, while the service reads `config.delay` | once `checkApiSettings` is repaired, a delay field of 5 with a count of 3: the two pauses last one second each | pauses of the configured length | high (not executed) | Ui.DelayFieldIgnored | Ui.DelayFieldHonoured |
