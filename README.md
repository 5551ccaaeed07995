# Perfecto MCP help index and formatters, modelled in Dafny

This project models the request-independent core of the Perfecto MCP server.

The centre is the documentation help cache of `HelpManager`. The loader (`_load_help_tree`) works in four stages:

- it flattens the nested index tree into an id-keyed table, using an explicit stack;
- it turns every chunk record into a `(title, help_id, help_tree_id)` item and drops the sentinel and release-notes pages;
- it files each item under a (category, subcategory) bucket of a two-level help tree;
- it fills the two class-level cross indices: the items index, and the node index.

Three queries read the cache, and each loads it lazily: `list_help_categories`, `list_help_category_content` and `read_help_info`.

Around that core sit these pieces:

- the AI-scriptless mobile test-tree formatters, which collect filter values and list tests page by page;
- the execution formatter;
- the user formatter;
- the `BaseResult` message accumulator and the `PaginationResult` defaults;
- the paging arithmetic, the device-under-test rule and the filter-key selection of the two AI-scriptless managers.

Modules:

- `Wrappers`, `Strings`, `Lists`, `Json`: `Option`/`Result`, and the Python string and list operations the source relies on:
  - `split`/`join`;
  - `str.replace` of every occurrence;
  - `rstrip`/`strip` with a character set;
  - an ASCII `lower`;
  - a duplicate-skipping append;
  - `dict.get` with defaults.
- `HelpIndex`: the loader's stages as values. This includes the explicit-stack flattening method and the build loop as a step function.
- `HelpManager`: the class `HelpCache`, whose three fields are the three class-level fields shared by every `HelpManager` instance, and its lazily loading queries.
- `MobileFormat`: both mobile formatters. The stack walk is specified as a pre-order, and both loops are methods proved against it.
- `ExecutionFormat`, `UserFormat`, `Results`: the remaining formatters and models/result.py.
- `ScriptlessManager`, `MobileManager`: the two managers.

Inputs replace everything fetched:

- the parsed root index payload;
- a function from chunk URL to parsed chunk;
- a function from page URL to the outcome of the page GET;
- the fetched test tree.

`json.dumps` is an uninterpreted function parameter.

Some behaviours of the code are easy to misread:

- The items index is written for every item (tools/help_manager.py:106), so the last writer wins. Only the node index keeps the first writer. `HelpManager.DuplicatePathScenario` takes two records with the same path and tree ids t1 and t2. It shows that the items index ends with t2, and that the node index has entries for both t1 and t2.
- The sentinel rule compares the whole help id with `"___"`, so `"home/___"` is not filtered. It is filed as page `"___"` of `home`/`self` (`HelpManager.SentinelOnlyWholeId`).
- A load that stops because a tree id is missing from the flat table has already written the items index, and possibly the node index, even though `help_tree` stays unset. There is no all-or-nothing publication of the indices (`HelpIndex.RunFailureLeavesDanglingKey`).
- The page URL leaves out the subcategory segment when the subcategory is "self" (tools/help_manager.py:158-160). A path `cat/self/x` is therefore filed, keyed and read as the path `cat/x`, while a one-segment path `cat` is read from `cat/.htm` (`HelpManager.SelfSegmentAliasesShortPath`, `HelpManager.OneSegmentPathUrl`).
- The mobile manager uses the formatter's page as written. A listing of exactly 50 p tests shows 49 on page p and hides the last one (`MobileManager.MobileExactFillHidesLastTest`). A longer listing shows at least 50 tests and reports a next page (`MobileManager.MobileLongListing`). A later group can push the page past its size, and the next page repeats those entries; `MobileFormat.LaterGroupOverflowsPage` shows this for a page of one.
- There is no single-flight guard. Concurrency is not modelled, and a failed load is simply retried by the next query.

## Model

| member | source | states |
|---|---|---|
| HelpIndex.Entry | tools/help_manager.py:46-57 | a node's flat entry holds its fields without "n", "c" and "i", and the "i" of each child in order |
| HelpIndex.VisitOrderNodes | tools/help_manager.py:42-59 | the work-list loop visits exactly the nodes of the forest it starts from |
| HelpIndex.Flatten | tools/help_manager.py:41-59 | the explicit-stack loop (pop the last node, push its children) computes the flat table of the visit order, or fails |
| HelpIndex.FlattenStepsFails | tools/help_manager.py:54-57 | writing the table fails exactly when a visited node has a child without an "i" field |
| HelpIndex.FlattenStepsKeys | tools/help_manager.py:54-57 | the table gains one key per visited node and keeps the entries under the other keys |
| HelpIndex.FlattenStepsEntries | tools/help_manager.py:54-57 | with distinct keys, each visited node's key holds that node's entry |
| HelpIndex.FlattenTreeShaped | tools/help_manager.py:42-59 | for a tree with distinct ids: one entry per node under the root's "n" and none for the root, each with its fields minus "n"/"c"/"i" and its child ids |
| HelpIndex.FlattenFails | tools/help_manager.py:56 | flattening fails exactly when some node of the forest has a child without "i" |
| HelpIndex.FirstOrEmpty | tools/help_manager.py:72-74 | `get(key, [""])[0]`: "" when the list is absent, the first element when present, an IndexError on an empty list |
| HelpIndex.HelpIdOfContentUrl | tools/help_manager.py:73 | "/content/" + path + ".htm" gives back exactly the path |
| HelpIndex.DeriveItem | tools/help_manager.py:72-75 | a record yields an item exactly when neither list is empty, with the help id derived from its URL |
| HelpIndex.ChunkItemsSpec | tools/help_manager.py:71-79 | a chunk fails exactly when a record has an empty list; otherwise its items are exactly the derived items that are not "___" or under "release-notes/" |
| HelpIndex.ChunkItemsOf | tools/help_manager.py:70-80 | the per-chunk loop computes the chunk's surviving items in record order |
| HelpIndex.MergeExcludes | tools/help_manager.py:77-85 | no merged item is the sentinel page or a release-notes page |
| HelpIndex.ChunkUrlInjective | tools/help_manager.py:64 | different chunk indices give different chunk URLs |
| HelpIndex.ChunkUrls | tools/help_manager.py:61-65 | one URL `{toc}{prefix}{i}.js` per index of `range(num_chunks)`, none when the count is negative |
| HelpIndex.FetchedChunks | tools/help_manager.py:63-83 | one parsed chunk per chunk URL, in chunk-index order |
| HelpIndex.SplitBucket | tools/help_manager.py:90-97 | the category never contains a slash |
| HelpIndex.SplitBucketRebuilds | tools/help_manager.py:90-97 | the bucket gives the path back: `cat/sub/new_id` for three or more segments, else `cat/new_id` or `cat`, with subcategory "self" |
| HelpIndex.SplitBucketOfPath | tools/help_manager.py:92-94 | a path `cat/sub/rest` with slash-free cat and sub goes to bucket (cat, sub, rest) |
| HelpIndex.SplitBucketOfShortPath | tools/help_manager.py:95-97 | a path `cat/rest` goes to (cat, "self", rest) |
| HelpIndex.SplitBucketExamples | tools/help_manager.py:90-97 | the one-, two-, three- and four-segment cases, including new id "" for one segment |
| HelpIndex.InsertSubLookup | tools/help_manager.py:102-104 | appending to a subcategory adds the item at the end of that list only |
| HelpIndex.InsertLookup | tools/help_manager.py:100-104 | inserting appends the item to bucket (cat, sub), creating it on first use, and leaves every other bucket as it was |
| HelpIndex.InsertSubNames | tools/help_manager.py:102-103 | the subcategory keys gain the new name at the end, only on first use |
| HelpIndex.InsertNames | tools/help_manager.py:100-101 | the category keys gain the new name at the end, only on first use |
| HelpIndex.InsertWellFormed | tools/help_manager.py:100-104 | insertion keeps the keys of both levels unique |
| HelpIndex.RunOkIff | tools/help_manager.py:108-113 | the build loop completes exactly when every item's tree id is in the node index already or in the flat table |
| HelpIndex.RunTree | tools/help_manager.py:85-104 | every bucket ends with its old items followed, in merged order, by each item filed there under its new id, duplicates kept |
| HelpIndex.RunWellFormed | tools/help_manager.py:87-104 | the built tree is a well-formed two-level dictionary |
| HelpIndex.RunItemsIndexKeys | tools/help_manager.py:106 | the items index gains exactly every item's key |
| HelpIndex.RunItemsIndexUntouched | tools/help_manager.py:106 | a key no item writes keeps its tree id |
| HelpIndex.RunItemsIndexLast | tools/help_manager.py:106 | last writer wins: a key holds the tree id of the last item with that key |
| HelpIndex.RunNodeIndexKeys | tools/help_manager.py:108-114 | the node index gains every item's tree id, and entries already present are never overwritten |
| HelpIndex.RunNodeIndexFirst | tools/help_manager.py:108-114 | first writer wins: a new tree id holds the first item's category, subcategory, new id and the flat table's child ids |
| HelpIndex.RunKeepsIndexClosed | tools/help_manager.py:106-114 | a completed build keeps every items-index entry pointing into the node index |
| HelpIndex.RunFailureLeavesDanglingKey | tools/help_manager.py:106-113 | a build that stops early leaves an items-index key whose tree id has no node-index entry |
| HelpManager.HelpCache.constructor | tools/help_manager.py:23-25 | the tree is unset and both indices are empty |
| HelpManager.HelpCache.Load | tools/help_manager.py:30-115 | the indices end as the build leaves them, whether or not it completed; `help_tree` is set to the built tree only when the load completes |
| HelpManager.FetchMerged | tools/help_manager.py:60-85 | the chunks are fetched from the generated URLs and merged in order, and any unreadable chunk fails the stage |
| HelpManager.HelpCache.EnsureLoaded | tools/help_manager.py:118-119 | the loader runs only while `help_tree` is unset, and a populated cache is left untouched |
| HelpManager.LoadKeepsIndexClosed | tools/help_manager.py:106-115 | a completed load from a closed index state leaves it closed |
| HelpManager.LoadedTreeWellFormed | tools/help_manager.py:87-115 | a completed load yields a tree whose category and subcategory keys are unique |
| HelpManager.LoadedContent | tools/help_manager.py:85-104 | after a completed load, a bucket lists exactly the merged items filed under it, in order, and is missing exactly when there are none |
| HelpManager.ItemsInFromMerged | tools/help_manager.py:88-104 | every item a bucket lists is a merged item placed under its new id |
| HelpManager.LoadedContentNotExcluded | tools/help_manager.py:76-104 | no listed item derives from a sentinel or release-notes page |
| HelpManager.DuplicatePathScenario | tools/help_manager.py:88-114 | two records with one path and tree ids t1, t2: the bucket keeps both, the items index holds t2, the node index holds both |
| HelpManager.SentinelOnlyWholeId | tools/help_manager.py:77 | "home/___" is not excluded and lands on page "___" of home/self |
| HelpManager.SharedTreeIdScenario | tools/help_manager.py:106-114 | two paths sharing a tree id: the second path's key resolves to a node entry naming the first path's page |
| HelpManager.CollectSummaries | tools/help_manager.py:120-126 | the loop appends one summary per category and ends with exactly the category summaries of the tree |
| HelpManager.SummariesNames | tools/help_manager.py:120-126 | one summary per category, in insertion order, each with its subcategory names |
| HelpManager.SummariesCoverLookup | tools/help_manager.py:120-126 | in a well-formed tree, a bucket exists exactly when the listing names its category together with that subcategory |
| HelpManager.HelpCache.ListHelpCategories | tools/help_manager.py:117-130 | loads lazily; a failed load raises; otherwise the category summaries and the one info line |
| HelpManager.NormalizeSub | tools/help_manager.py:137-138 | "" becomes "self" and every other id is kept |
| HelpManager.CollectContent | tools/help_manager.py:135-143 | one entry per requested subcategory, in order: the bucket's items, or the not-found warning naming the category and the normalised subcategory |
| HelpManager.HelpCache.ListHelpCategoryContent | tools/help_manager.py:132-146 | loads lazily; one entry per requested subcategory, in order: the bucket's items, or the not-found warning |
| HelpManager.HelpUrlRebuildsPath | tools/help_manager.py:156-160 | for a path with a slash whose second segment is not "self" (when it has three or more segments), the page URL is the content base, the original path and ".htm"; the path `cat` and the paths `cat/self/x` are outside it |
| HelpManager.SelfSegmentAliasesShortPath | tools/help_manager.py:90-160 | a path `cat/self/x` gets the bucket, the items-index key and the URL of the path `cat/x`; the URL drops the "self" segment |
| HelpManager.OneSegmentPathUrl | tools/help_manager.py:95-160 | a one-segment path `cat` is filed as (cat, "self", "") and read from `cat/.htm` |
| HelpManager.ExpandMembers | tools/help_manager.py:176-178 | expansion keeps exactly the child ids present in the node index, all of them in order when all are present |
| HelpManager.ExpandSubNodes | tools/help_manager.py:176-178 | the loop computes the expansion of the child ids |
| HelpManager.HelpObjectShape | tools/help_manager.py:162-183 | an object fails exactly on 401/403 or a dangling index key; it carries its help id; `sub_nodes` is set exactly on a page ending with "In this section:"; a status error becomes "Error:" + text |
| HelpManager.HelpObjectUnindexedToc | tools/help_manager.py:170-179 | a table-of-contents page whose key is not indexed gets an empty `sub_nodes` |
| HelpManager.ReadOne | tools/help_manager.py:156-185 | one loop iteration, fetching the URL built with no subcategory segment for "self" |
| HelpManager.ReadObjectsOk | tools/help_manager.py:154-185 | the read succeeds exactly when every iteration does, with one object per help id, in order |
| HelpManager.ReadClosedFailsOnlyOnCredentials | tools/help_manager.py:165-183 | with a closed index, a read fails only when some page answers 401/403 |
| HelpManager.HelpCache.ReadHelpInfo | tools/help_manager.py:148-193 | loads lazily; the result is the normalised ids and the objects the reads give, and the cache is unchanged |
| MobileFormat.PopStep | formatters/ai_scriptless_mobile.py:12-24 | one iteration pops the first node of the walk, and the new stack walks the rest |
| MobileFormat.VisitLeaves | formatters/ai_scriptless_mobile.py:12-15 | a stack with no containers is walked top first |
| MobileFormat.VisitIsReordering | formatters/ai_scriptless_mobile.py:11-24 | the stack walk visits every node of the pre-order exactly as often as the pre-order does |
| MobileFormat.PreorderAllClosed | formatters/ai_scriptless_mobile.py:23-24 | the walk reaches the top-level nodes and every child of every container reached, and nothing else |
| MobileFormat.Cut | formatters/ai_scriptless_mobile.py:16 | the cut name is the longest prefix of the name that does not end in '.', 'x', 'm' or 'l': every character removed is one of them |
| MobileFormat.CutIsNotSuffixRemoval | formatters/ai_scriptless_mobile.py:16 | "mail.xml" becomes "mai" and "report.xml" becomes "report" |
| MobileFormat.NamesInMembers | formatters/ai_scriptless_mobile.py:15-22 | a walk contributes exactly the cut names, creators and modifiers of its SIMPLE nodes |
| MobileFormat.AllNamesMembers | formatters/ai_scriptless_mobile.py:10-22 | the same over every group |
| MobileFormat.FilterValuesSpec | formatters/ai_scriptless_mobile.py:4-25 | neither list has duplicates; `test_name` holds exactly the cut names of the SIMPLE nodes, and `owner_list` exactly their creators and modifiers |
| MobileFormat.ValuesStep | formatters/ai_scriptless_mobile.py:13-22 | a popped node adds its own values before the rest of the walk |
| MobileFormat.AddValuesOf | formatters/ai_scriptless_mobile.py:16-22 | a SIMPLE node's values are the duplicate-skipping appends of name, creator and modifier; other nodes add nothing |
| MobileFormat.CollectGroupValues | formatters/ai_scriptless_mobile.py:11-24 | one group's loop extends both lists, in first-encounter order, by the walk's values |
| MobileFormat.FormatFilterValues | formatters/ai_scriptless_mobile.py:4-25 | the formatter returns the first-encounter, duplicate-free values of all groups |
| MobileFormat.Entry | formatters/ai_scriptless_mobile.py:48 | a listing line starts with `id:{key} name:{cut name} created[user:` and ends with "]" |
| MobileFormat.CollectVisitEarly | formatters/ai_scriptless_mobile.py:40-54 | before the limit is passed, a group adds its matches up to one past `skip + page_size` |
| MobileFormat.CollectVisitLate | formatters/ai_scriptless_mobile.py:40-54 | after the limit is passed, a group still adds up to one match |
| MobileFormat.CollectGroupsLate | formatters/ai_scriptless_mobile.py:35-54 | after the limit is passed, later groups only append |
| MobileFormat.CollectGroupsPrefix | formatters/ai_scriptless_mobile.py:35-54 | the collected list is the whole filtered listing when it is short, and agrees with its first `skip + page_size + 1` entries otherwise |
| MobileFormat.PySlice | formatters/ai_scriptless_mobile.py:59 | Python slicing: the plain subsequence for in-range bounds, never longer than the list |
| MobileFormat.FormatTestsWindow | formatters/ai_scriptless_mobile.py:28-59 | with the intended slice end, a page is exactly entries `skip` to `skip + page_size` of the filtered listing, with its exact length |
| MobileFormat.CollectedAgrees | formatters/ai_scriptless_mobile.py:35-54 | from an empty list, the collected entries are the whole listing when it is short and agree with its first `skip + page_size + 1` entries otherwise |
| MobileFormat.PageOfAgreeing | formatters/ai_scriptless_mobile.py:59 | a collected list that agrees with the listing that far slices to the listing's window, with its exact length |
| MobileFormat.ExactFillDropsLast | formatters/ai_scriptless_mobile.py:56-59 | as written, exactly `skip + page_size` matches give `page_size - 1` entries; the intended end gives `page_size` |
| MobileFormat.SingleTestEmptyPage | formatters/ai_scriptless_mobile.py:56-59 | as written, one test and a page of one give an empty page |
| MobileFormat.LaterGroupOverflowsPage | formatters/ai_scriptless_mobile.py:53-59 | as written, two tests in one group and one in the next give two entries for a page of one |
| MobileFormat.ShortListingAsWritten | formatters/ai_scriptless_mobile.py:56-59 | as written, a listing that ends before `skip + page_size` gives the corrected page |
| MobileFormat.LongListingAsWritten | formatters/ai_scriptless_mobile.py:35-59 | as written, a listing longer than `skip + page_size` gives at least `page_size` entries, the first `page_size` of them the requested window |
| MobileFormat.LongPage | formatters/ai_scriptless_mobile.py:56-59 | the as-written slice of a collected list that runs past the page starts with the page's window of the listing |
| MobileFormat.CollectGroupTests | formatters/ai_scriptless_mobile.py:39-54 | one group's loop: filtered SIMPLE nodes `continue` past the length test, and `break` ends only this group |
| MobileFormat.FormatMobileTests | formatters/ai_scriptless_mobile.py:28-59 | the formatter as written: visibility, name and owner filters, per-group break, and the slice end |
| ExecutionFormat.ExecutionUrlId | formatters/execution.py:28 | the report URL is the fixed prefix for the cloud followed by the test id |
| ExecutionFormat.FormatPlatforms | formatters/execution.py:13-26 | the inner loop builds the platforms in order, raising on the first bad one |
| ExecutionFormat.FormatExecution | formatters/execution.py:12-49 | one item's platforms, URL, job fields and defaults |
| ExecutionFormat.FormatExecutions | formatters/execution.py:6-50 | the outer loop over the items, when there is an "items" key |
| ExecutionFormat.ExecutionsOfSpec | formatters/execution.py:11-49 | one execution per item, in order, when no item raises |
| ExecutionFormat.PlatformsOfSpec | formatters/execution.py:13-26 | one platform per input platform, in order, when none raises |
| ExecutionFormat.FormatItems | formatters/execution.py:10-50 | no "items" key gives []; a list of items gives one execution per item when none raises |
| ExecutionFormat.PlatformModel | formatters/execution.py:14-24 | the model is mobileInfo's "model" (default "") when there is mobileInfo, else ""; the browser defaults to {} |
| ExecutionFormat.ExecutionDefaults | formatters/execution.py:28-45 | the URL carries the id; a missing job gives `None` job fields; failure reason and error analysis default to {}, tags to [] |
| ExecutionFormat.MissingPlatformsRaises | formatters/execution.py:13 | an item without "platforms" raises |
| UserFormat.OrDefault | formatters/user.py:7-8 | `get(key) or default`: the entry when truthy, the default otherwise |
| UserFormat.FormatUsers | formatters/user.py:11-19 | exactly one user, with a non-empty username and the derived names |
| UserFormat.UsernameDefault | formatters/user.py:13 | the username is the entry when truthy, "unknown" otherwise |
| UserFormat.DisplayNameJoined | formatters/user.py:9 | trimmed first and last names join with one space |
| UserFormat.DisplayNameFirstOnly | formatters/user.py:9 | a lone trimmed first name is the display name |
| UserFormat.DisplayNameFallback | formatters/user.py:9 | blank names give the "username" entry, or "Unknown" without one |
| Results.Extended | models/result.py:13-15 | the field becomes the old list (or [] for `None` or empty) followed by the messages, never `None` |
| Results.ExtendedTwice | models/result.py:13-15 | two extensions are one extension by the concatenated messages |
| Results.ExtendedKeepsOld | models/result.py:13-15 | the old messages stay as a prefix and exactly the new ones follow |
| Results.BaseResult.constructor | models/result.py:6-10 | the four fields are as given |
| Results.BaseResult.AppendWarnings | models/result.py:12-15 | `warning` is extended, and result, error and info are unchanged |
| Results.BaseResult.AppendInfo | models/result.py:17-20 | `info` is extended, and result, error and warning are unchanged |
| Results.DefaultPaginationEmpty | models/result.py:28-35 | a fresh page has no items, and count, total, page, offsets and has_more are all zero |
| ScriptlessManager.Skip | tools/ai_scriptless_manager.py:25-27 | the tests before page p number 50 (p - 1) |
| ScriptlessManager.ListTestsPage | tools/ai_scriptless_manager.py:36-43 | items as given, count = their number, page, offset = skip, next offset = skip + 50, has_more exactly when there are at least 50 items |
| ScriptlessManager.FirstPageByDefault | tools/ai_scriptless_manager.py:26-27 | without a page index, page 1 from offset 0 to 50 |
| ScriptlessManager.PagesAreContiguous | tools/ai_scriptless_manager.py:40-41 | a page's next offset is the next page's offset |
| ScriptlessManager.ListTests | tools/ai_scriptless_manager.py:24-50 | the page wraps the formatter's items and passes error, warning and info through; a `None` formatter result raises |
| ScriptlessManager.RequestBody | tools/ai_scriptless_manager.py:76-82 | the body has exactly params {DUT}, testKey and triggerType "Manual" |
| ScriptlessManager.ExecuteTestPosts | tools/ai_scriptless_manager.py:70-87 | posted exactly for a known device type with a non-empty DUT, with that DUT; an unknown type gets the error message |
| ScriptlessManager.ExecuteOnRealDevice | tools/ai_scriptless_manager.py:71-72 | a real device posts its non-empty id and is refused for a missing or empty one |
| ScriptlessManager.ExecuteOnVirtualDevice | tools/ai_scriptless_manager.py:73-74 | virtual and desktop devices post the serialised dict |
| ScriptlessManager.SelectFilterValues | tools/ai_scriptless_manager.py:58-60 | succeeds exactly when every requested name is in the result; the keys are exactly the names, each mapped to the source's value |
| MobileManager.MobilePageWindow | tools/ai_scriptless_mobile_manager.py:23-42 | with the corrected slice, page p holds tests 50 (p - 1) to 50 p of the filtered listing, at most 50 of them, and has_more holds exactly when the listing reaches 50 p |
| MobileManager.MobileShortListing | tools/ai_scriptless_mobile_manager.py:23-42 | as written, a listing shorter than 50 p gives the corrected page and no next page |
| MobileManager.MobileExactFillHidesLastTest | tools/ai_scriptless_mobile_manager.py:35-42 | as written, exactly 50 p matches show 49 tests and no next page; the corrected slice shows 50 |
| MobileManager.MobileLongListing | tools/ai_scriptless_mobile_manager.py:23-42 | as written, a listing longer than 50 p shows at least 50 tests and a next page, the first 50 being the requested window |
| MobileManager.MobileExecuteBody | tools/ai_scriptless_mobile_manager.py:66-76 | the body has exactly params {DUT: device_id}, testKey and triggerType "Manual", for any id |
| MobileManager.EmptyDeviceIdPostedOnlyByMobile | tools/ai_scriptless_mobile_manager.py:69-76 | an empty device id is posted by the mobile manager but refused by the web manager |
| MobileManager.ListFilterValues | tools/ai_scriptless_mobile_manager.py:52-63 | succeeds exactly when every name is "test_name" or "owner_list" (or there are none); the keys are the names; the values are the collector's lists |

## Left out

- HTTP transport, authentication and the `asyncio.gather` fan-out of the chunk fetches (tools/help_manager.py:67-83) are left out. Fetched payloads are inputs, already parsed, in chunk-index order. `tools/utils.py` (`api_request`, `http_request`) is not part of this model. From it, only this behaviour is kept: a 401/403 page read gives a `None` result, whose `.get` raises.
- `convert_js_to_py_dict`, `format_help_info` and `format_ai_scriptless_tests` are not part of this model. Their outputs are inputs: the parsed payloads, the page fields, and the web formatter's list.
- Concurrency is not modelled. In particular, two overlapping first queries could each start a load.
- The `start_time`/`end_time` timestamps of the execution formatter use float division and `datetime`, and are left out.
- Pydantic validation is modelled only for the string `test_id` of an execution. The other fields keep whatever JSON value the item holds. `model_dump` with `exclude_none` is left out.
- ExecutionFormat.FormatExecution: values that are neither lists, dicts nor strings are simplified. Iterating a number or `None` raises. Iterating a non-empty string or dict gives strings, whose `.get` raises.
- Python `str.lower` and `str.strip` are restricted to ASCII letters and ASCII whitespace.
- Dictionary key order is kept for the help tree, whose order `list_help_categories` shows. The flat table, the two indices, the filter-values result and the request body are Dafny maps. Their contents, including which write survives, are modelled, but not their key order.
- Results.BaseResult.AppendWarnings: `list.extend` mutates the existing list in place, so another holder of the same list would see the change. The model replaces the field's value and leaves that aliasing out.
- `PaginationResult.has_more` defaults to the integer 0. It is modelled as `false`.
- The `register` tool-dispatch blocks, traceback-based error strings, `list_real_devices_extended_commands` and `read_real_devices_extended_command_info` are left out. They are dispatch glue and HTTP pass-throughs.
- tools/skills_manager.py is not part of this model. It wraps helpers that are not shown.
- config/version.py is not part of this model. It consists of filesystem, TOML and process calls.
- MobileFormat.Rejected: the filter values are modelled as strings, and the owner list as a list of strings. A filter given as `None` or as a non-string value, which would raise in `.lower()` or `in`, is not modelled.
- ScriptlessManager.ExecuteTest: `device_under_test` is a dict. A non-dict argument, whose `.get` would raise, is not modelled. `json.dumps` is an uninterpreted function parameter, so the exact serialised text is not modelled.
- Test nodes: a node missing one of "type", "name", "key", "createdBy", "modifiedBy" or the formatted timestamps would raise KeyError. The model assumes these fields are present.
- Test groups: `tests["items"]` (formatters/ai_scriptless_mobile.py:10 and :35) and `item_visibility["visibility"]` (:36) raise KeyError on a payload without those keys, the last one even when no visibility filter is given. The model's `VisibilityGroup` always has a visibility and a list of items, so these errors are not modelled.
- HelpIndex.IndexNode: node fields and the "i" values are arbitrary JSON in the payload, and so are `ch["i"]` (tools/help_manager.py:56) and `content.get("i", [""])[0]` (:74). The model holds the node fields as a map from strings to strings and the tree ids as strings, so non-string ids and field values are not modelled.
- MobileFormat.Entry: the contract states the line's fixed prefix and its closing bracket. The two `date:` parts are the nodes' formatted timestamps, copied through as given.
- The web formatter `format_ai_scriptless_tests_filter_values` is not part of this model. `ScriptlessManager.SelectFilterValues` takes its result as an input.

## Findings

| source | as written | input that shows it | evidently intended | confidence | as-written member | corrected member |
|---|---|---|---|---|---|---|
| formatters/ai_scriptless_mobile.py:56-59 | when at least `skip + page_size` entries were collected, the slice ends at `len - 1` | a single SIMPLE test with `skip = 0`, `page_size = 1`: the page is `[]`; in general exactly `skip + page_size` matches give `page_size - 1` entries, and the manager reports no further page | the page is `collected[skip:skip + page_size]`, the requested window of the filtered listing | not executed | MobileFormat.ExactFillDropsLast, MobileManager.MobileExactFillHidesLastTest | MobileFormat.FormatTestsWindow, MobileManager.MobilePageWindow |
| formatters/ai_scriptless_mobile.py:53-59 | the `break` leaves only the current group, and a later group still adds an entry before its length test; the `len - 1` end then lets it through | two groups, the first with SIMPLE tests a, b and the second with c; `skip = 0`, `page_size = 1`: the page is `[entry(b), entry(a)]`, two entries for a page size of one | at most `page_size` entries, the first ones of the filtered listing | not executed | MobileFormat.LaterGroupOverflowsPage, MobileManager.MobileLongListing | MobileFormat.FormatTestsWindow, MobileManager.MobilePageWindow |
