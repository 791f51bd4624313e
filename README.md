# EAG_V1 cores in Dafny

The repository holds three website-blocker browser extensions, a stock-graph
extension driven by Gemini, a practice math agent notebook, and a calculator MCP
server. This project models their sequential cores and proves properties of
them. The browser, the network, Gemini, the JSON and Python-literal parsers and
the tool servers are replaced by function-typed parameters (oracles).

- **Blocked-site list** (`SiteList`, `SiteCollections`, `Assignment1Popup`,
  `Assignment2Popup`, `RootPopup`). A site is normalised by dropping one
  leading `http://` or `https://`, then one leading `www.`, then everything from
  the first `/`. The stored `blockedSites` array gets a site appended only when
  it is absent, and `removeSite` filters every equal entry out. Switching a site
  collection on appends its missing sites in collection order, and switching it
  off filters all of its sites out. Each collection's flag in
  `activeCollections` is recomputed as "every site of the collection is
  listed". Each popup is a class whose fields are the storage entries and the
  input boxes, and each handler is a method.
- **Block decisions** (`Assignment1Background`, `Assignment2Background`,
  `DistractionCheck`). A URL is blocked when some list entry is a substring of
  its lower-cased hostname. The second blocker first exempts Chrome's internal
  pages, then blocks listed sites, and only then asks Gemini. A reply counts as
  "yes" only as the exact word once lower-cased and trimmed.
- **Stock agent** (`StockAgent`). `processLLMResponse` classifies a reply by
  its prefix. The analyze handler's loop asks the model at most five times. It
  ends successfully only on a tool result that starts with `data:image`. Each
  completed round is logged as `Iteration k: <reply>`.
- **Math agent** (`MathAgent`). `function_caller` dispatches to three helpers.
  The notebook's loop runs at most ten rounds and stops on `FINAL_ANSWER:`. The
  module-level variables are the fields of a `Notebook` class.
- **Integer tools** (`Numbers`, `Utilities`, `McpServer`). These are the
  Fibonacci generators, `sum_list`, the `log_base_10` guard, and the MCP
  server's integer and string tools, with Python's integer semantics written out
  (floored `%`, `int(a ** b)` for a negative exponent, `math.factorial` of a
  negative number).

Each looping source function is a method with loop invariants. Its `ensures`
ties the result or the new state to a function (`GenerateFibonacci`,
`FibonacciNumbers`, `Analyze`, `Notebook.RunLoop`,
`Assignment1Popup.Popup.ToggleCollection`,
`Assignment1Popup.Popup.UpdateCollectionStates`). The source's promises are
then proved about that function as lemmas. `Results` holds `Option` and
`Result`. `Text` holds the string operations the sources use: JavaScript's
`trim`, Python's `strip`, `split`, `includes`, `toLowerCase` on ASCII letters,
decimal rendering, and `join`.

The stock agent's code differs in several places from what an agent loop
driven by its system prompt would be expected to do. The model follows the code:

- A `TASK_COMPLETE:` or `INSUFFICIENT_TOOLS:` reply does not stop the loop.
  Only a `data:image` result ends it early.
- Later prompts carry only the last result, not the whole history.
- A function call is split at every bar character, not only at the first,
  and pieces after the second are dropped.
- Any parse or tool failure aborts the run instead of being recorded.
- The parameters may be any JSON value, not only an object.

## Model

| member | source | states |
|---|---|---|
| SiteList.Normalise | assignment1/popup.js:44-46 | the stored site contains no `/` and is no longer than the raw entry |
| SiteList.NormaliseIsHostPart | assignment1/popup.js:44-46 | once scheme and `www.` are stripped, the result is the longest `/`-free prefix of what remains |
| SiteList.NormaliseKeepsBareHost | assignment2/popup.js:185-187 | a host with no `/` and no leading `www.` is stored unchanged |
| SiteList.NormaliseIdempotentIff | assignment2/popup.js:185-187 | normalising twice changes nothing exactly when the first result does not start with `www.` |
| SiteList.NormaliseFullUrl | assignment1/popup.js:44-46 | `https://www.x.io/p` is stored as `x.io` |
| SiteList.NormaliseDoubleWww | assignment1/popup.js:45 | only one leading `www.` is removed: `www.www.x.io` becomes `www.x.io` |
| SiteList.SiteToAdd | assignment1/popup.js:40-46 | a non-empty predefined site is used as given, otherwise the typed text trimmed and lower-cased; either is then normalised (properties: `TypedSiteIsLowerCase`, `PredefinedSiteKeepsCase`) |
| SiteList.TypedSiteIsLowerCase | assignment1/popup.js:41 | a typed site, trimmed and lower-cased, has no upper-case letter after normalisation |
| SiteList.PredefinedSiteKeepsCase | assignment1/popup.js:41 | every non-empty predefined host without `/` or a leading `www.` is stored exactly as given, upper-case letters included, whatever was typed |
| SiteList.CurrentTabSite | assignment2/popup.js:129-130 | a site exists exactly when the protocol starts with `http`; it is the hostname with one leading `www.` removed |
| SiteList.AddIfAbsent | assignment1/popup.js:49-52 | a present site leaves the list unchanged; an absent one is appended; the old list is a prefix and membership is old entries plus the site |
| SiteList.AddIfAbsentKeepsNoDuplicates | assignment1/popup.js:49-52 | appending when absent never creates a duplicate |
| SiteList.AppendFreshKeepsList | assignment1/popup.js:49-52 | pushing a site not yet listed creates no duplicate, and no empty entry when the site is not empty |
| SiteList.RemoveAll | assignment1/popup.js:124 | the target is gone, every other entry keeps its membership, and the multiset loses exactly the target's copies |
| SiteList.RemoveAllKeepsNoDuplicates | assignment1/popup.js:124 | filtering keeps a duplicate-free list duplicate-free |
| SiteList.RemoveAllAppend | assignment2/popup.js:263 | filtering distributes over concatenation |
| SiteList.RemoveAllKeepsOrder | assignment2/popup.js:263 | the kept entries are a subsequence of the old list, in their old order |
| SiteList.Without | assignment1/popup.js:199-201 | an entry survives exactly when it was listed and is not in the collection |
| SiteList.WithoutKeepsOrder | assignment1/popup.js:199-201 | the surviving entries keep their relative order |
| SiteList.WithoutKeepsNoDuplicates | assignment1/popup.js:199-201 | disabling keeps the list duplicate-free |
| SiteList.AddAll | assignment1/popup.js:190-194 | the `forEach` over a collection's sites as a left fold of append-if-absent (properties: `AddAllShape`, `EnabledCollectionIsBlocked`) |
| SiteList.AddAllShape | assignment1/popup.js:190-194 | enabling keeps the old list as a prefix, adds exactly the collection's sites, appends them in collection order, and creates no duplicate |
| SiteList.EnabledCollectionIsBlocked | assignment1/popup.js:188-195 | after enabling, every site of the collection is listed |
| SiteList.DisabledCollectionIsNotBlocked | assignment1/popup.js:198-203 | after disabling, no site of the collection is listed, including manually added ones |
| SiteList.NoEmptySiteAdded | assignment1/popup.js:48-52 | no list operation brings in the empty site |
| SiteCollections.AllHasDistinctKeys | assignment2/site-collections.js:1-71 | the five predefined collections have distinct keys |
| SiteCollections.RefreshStates | assignment1/popup.js:218-230 | the `forEach` over the collections, each setting its key to whether every one of its sites is listed, in order (properties: `RefreshStatesSetsFlags`, `RefreshStatesKeepsOthers`, `RefreshStatesKeys`, `RefreshStatesMeaning`) |
| SiteCollections.RefreshStatesSetsFlags | assignment1/popup.js:222-228 | after the refresh, each collection's flag is true exactly when all its sites are in the list |
| SiteCollections.RefreshStatesKeepsOthers | assignment1/popup.js:219-228 | stored flags of keys that are not collections keep their value |
| SiteCollections.RefreshStatesKeys | assignment1/popup.js:219-228 | no key appears other than stored keys and collection keys |
| SiteCollections.RefreshStatesMeaning | assignment1/popup.js:218-230 | the three facts together |
| Assignment1Popup.Popup.constructor | assignment1/popup.js:136-138 | a missing `blockedSites` or `activeCollections` entry reads as empty |
| Assignment1Popup.Popup.AddSite | assignment1/popup.js:40-68 | an empty or already listed site changes nothing; a new site is appended, the input cleared only when typed, and the flags recomputed from the new list; the list stays duplicate-free and free of empty sites |
| Assignment1Popup.Popup.RemoveSite | assignment1/popup.js:121-132 | the list becomes the filtered list and the flags are recomputed from it; the invariant is kept |
| Assignment1Popup.Popup.ToggleCollection | assignment1/popup.js:182-209 | enabling is the in-order append of absent sites (the `forEach` loop), disabling is the filter; only the toggled flag changes |
| Assignment1Popup.Popup.UpdateCollectionStates | assignment1/popup.js:218-230 | the flags equal the in-order refresh; with distinct keys, each collection's flag says whether all its sites are listed |
| Assignment1Popup.Popup.BlockCurrentSite | assignment1/popup.js:18-31 | no tab, an unparsable URL or a non-`http` protocol change nothing; otherwise it is `addSite` with the hostname minus one `www.` |
| Assignment2Popup.Popup.constructor | assignment2/popup.js:232-234 | the popup opens on the stored list (missing reads as empty) and the stored key |
| Assignment2Popup.Popup.SaveApiKey | assignment2/popup.js:18-26 | the trimmed key is stored exactly when it is not empty; otherwise the old key stays |
| Assignment2Popup.Popup.AddSite | assignment2/popup.js:181-207 | an empty or listed site changes nothing; a new one is appended and the input cleared when typed; the key is untouched |
| Assignment2Popup.Popup.Append | assignment2/popup.js:190-197 | a new, non-empty site is appended and the input cleared only when asked; the list stays duplicate-free and free of empty sites |
| Assignment2Popup.Popup.RemoveSite | assignment2/popup.js:260-270 | the list becomes the filtered list; nothing else changes |
| Assignment2Popup.Popup.BlockCurrentSite | assignment2/popup.js:118-142 | the button stops where `TabDecision` says, changing nothing, or hands `TabDecision`'s site to `addSite` |
| Assignment2Popup.TabDecision | assignment2/popup.js:118-142 | the button's guards in order: no key, no tab, an unparsable URL, a non-`http` protocol, a model that says no; otherwise the site to add (properties: `TabDecisionMeaning`) |
| Assignment2Popup.TabDecisionMeaning | assignment2/popup.js:118-142 | a site reaches `addSite` exactly when a key is stored, the URL parses with an `http` protocol and the model calls the hostname distracting; that site is the hostname minus one leading `www.`; no key always stops first |
| RootPopup.TypedSite | popup.js:11-12 | the input trimmed and lower-cased, `None` when that is empty (properties: `TypedSiteEmptyIff`, `TypedSiteKeepsUrl`) |
| RootPopup.TypedSiteEmptyIff | popup.js:11-12 | nothing is added exactly when the input is all whitespace |
| RootPopup.TypedSiteKeepsUrl | popup.js:11 | a trimmed lower-case entry is stored unchanged, with scheme, `www.` and path kept |
| RootPopup.Popup.constructor | popup.js:13-14 | a missing list reads as empty |
| RootPopup.Popup.Add | popup.js:10-24 | the site is added exactly when it is non-empty and absent; then it is appended and the input cleared; otherwise nothing changes |
| RootPopup.Popup.RemoveSite | popup.js:54-62 | the list becomes the filtered list; the input is untouched |
| Assignment1Background.MatchesList | assignment1/background.js:7 | `blockedSites.some(site => hostname.includes(site))` on the lower-cased hostname (properties: `MatchesListIff`, `ListedEntryMatches`) |
| Assignment1Background.MatchesListIff | assignment1/background.js:7 | the list matches exactly when some entry is a substring of the lower-cased hostname |
| Assignment1Background.ListedEntryMatches | assignment1/background.js:7 | a listed entry occurring in the hostname blocks it, wherever it sits in the list |
| Assignment1Background.EmptyEntryBlocksEverything | assignment1/background.js:7 | an empty entry blocks every page |
| Assignment1Background.UpperCaseEntryNeverMatches | assignment1/background.js:6-7 | an entry with an upper-case letter never matches |
| Assignment1Background.SubstringMatchExample | assignment1/background.js:7 | `x.io` also blocks `ax.io` |
| Assignment1Background.IsBlocked | assignment1/background.js:2-11 | no verdict exactly when the URL does not parse; otherwise true exactly when some stored entry is a substring of the lower-cased hostname |
| Assignment1Background.NothingStoredBlocksNothing | assignment1/background.js:5-7 | with no list or an empty one, nothing is blocked |
| Assignment1Background.OnBeforeNavigate | assignment1/background.js:14-23 | a tab is redirected exactly when the navigation is the main frame and the verdict is true, and it is the navigating tab |
| Assignment1Background.OnTabUpdated | assignment1/background.js:26-35 | a tab is redirected exactly when it is loading, has a non-empty URL and the verdict is true |
| Assignment1Background.SubFramesNeverRedirect | assignment1/background.js:15 | sub-frame navigations never redirect |
| Assignment2Background.IsChromeInternalPage | assignment2/background.js:14-24 | the five internal prefixes tested one by one (properties: `IsChromeInternalPageIff`, `WebPageIsNotInternal`) |
| Assignment2Background.IsChromeInternalPageIff | assignment2/background.js:14-24 | a URL is internal exactly when it starts with one of the five prefixes |
| Assignment2Background.WebPageIsNotInternal | assignment2/background.js:14-24 | an `http` URL is never internal |
| Assignment2Background.CheckWithGemini | assignment2/background.js:27-59 | no key or a failed request is false; otherwise whether the reply is yes (properties: `CheckWithGeminiMeaning`) |
| Assignment2Background.CheckWithGeminiMeaning | assignment2/background.js:27-59 | the verdict is true exactly when a non-empty key is stored, the request succeeds, and the reply is `yes` in any case with only whitespace around it |
| Assignment2Background.ShouldBlock | assignment2/background.js:62-78 | internal pages are exempt, an unparsable URL is not blocked, a listed page is blocked, any other page gets the model's verdict (properties: `ShouldBlockIff` and the three lemmas around it) |
| Assignment2Background.InternalPageNeverBlocked | assignment2/background.js:64-66 | an internal page is never blocked, whatever the list and the model say |
| Assignment2Background.ListedPageBlockedWithoutModel | assignment2/background.js:71-74 | a listed page is blocked, and any two models give the same verdict on it |
| Assignment2Background.OtherPagesGetModelVerdict | assignment2/background.js:77 | any other parsable page gets the model's verdict on its lower-cased hostname |
| Assignment2Background.ShouldBlockIff | assignment2/background.js:62-78 | blocked exactly when not internal, parsable, and listed or judged distracting |
| Assignment2Background.NoKeyMeansListOnly | assignment2/background.js:30-32 | without a key, the decision is the first blocker's list check, except that internal pages are exempt |
| DistractionCheck.IsYes | assignment2/popup.js:166-167 | the reply trimmed and lower-cased is exactly `yes` (properties: `IsYesIff`, `PaddedYesIsYes`, `OtherWordsAreNo`) |
| DistractionCheck.CheckIfDistracting | assignment2/popup.js:145-172 | `checkIfDistracting(site, apiKey)`: the model is asked the fixed question about the site, and the verdict is `IsYes` of its reply, a failure counting as no (properties: `IsYesIff`, `FailureIsNo`, `TabDecisionMeaning`) |
| DistractionCheck.FailureIsNo | assignment2/popup.js:168-171 | a failed request counts as no |
| DistractionCheck.TrimmedReplyShape | assignment2/popup.js:166 | a reply whose trimmed lower case is a word is that word, in some case, padded only by whitespace |
| DistractionCheck.PaddedYesIsYes | assignment2/popup.js:166-167 | `yes` in any case with only whitespace around it is a yes |
| DistractionCheck.IsYesIff | assignment2/popup.js:166-167 | a reply is yes exactly when it is `yes` in any case padded only by whitespace |
| DistractionCheck.OtherWordsAreNo | assignment2/popup.js:166-167 | any other unpadded word, such as `no`, counts as no |
| StockAgent.ParseDirective | assignment3_stock_graph/chrome_extension/popup.js:137-173 | the three prefix tests of `processLLMResponse` in order; a call is split on every `\|` and its first two pieces, trimmed, are name and parameters (properties: the round-trip lemmas, `PrefixesExclusive`, `UnprefixedIsRejected`) |
| StockAgent.ProcessResponse | assignment3_stock_graph/chrome_extension/popup.js:133-174 | unparsable parameters fail before any tool runs, a tool failure is wrapped, the two messages are returned, anything else is rejected (properties: `ProcessFunctionCall`, `ParamsFailureSkipsTools`, `NoBarIsParameterError`) |
| StockAgent.AfterPrefix | assignment3_stock_graph/chrome_extension/popup.js:139-166 | `text.split(prefix)[1].trim()`: the text between the leading prefix and its next occurrence, trimmed (properties: `AfterPrefixOfFresh`, `StopsAtNext`) |
| StockAgent.AfterPrefixOfFresh | assignment3_stock_graph/chrome_extension/popup.js:160 | when the prefix does not recur, `split(prefix)[1].trim()` is the rest of the reply, trimmed |
| StockAgent.SpacedBody | assignment3_stock_graph/chrome_extension/popup.js:139 | after a prefix and one space, a bare text holding no second prefix is what `split(prefix)[1].trim()` gives back |
| StockAgent.CallBody | assignment3_stock_graph/chrome_extension/popup.js:139 | after `FUNCTION_CALL: `, a bare text holding no second prefix is taken whole as the function info |
| StockAgent.FunctionCallRoundTrip | assignment3_stock_graph/chrome_extension/popup.js:137-142 | `FUNCTION_CALL: ` followed by name, a bar and params parses back to the call of `name` with `params` |
| StockAgent.ExtraSegmentsDropped | assignment3_stock_graph/chrome_extension/popup.js:142 | pieces after the second bar are dropped |
| StockAgent.NoBarIsParameterError | assignment3_stock_graph/chrome_extension/popup.js:142-153 | a call without a bar has no parameter string and fails with the parameter-format error |
| StockAgent.ParamsFailureSkipsTools | assignment3_stock_graph/chrome_extension/popup.js:146-156 | unparsable parameters fail with the parameter-format error whatever the tool server would do |
| StockAgent.ProcessFunctionCall | assignment3_stock_graph/chrome_extension/popup.js:147-156 | parsed parameters reach the tool, whose result is returned and whose failure is wrapped as `Function call failed: ` |
| StockAgent.PrefixesExclusive | assignment3_stock_graph/chrome_extension/popup.js:137-173 | at most one of the three prefixes matches |
| StockAgent.TaskCompleteRoundTrip | assignment3_stock_graph/chrome_extension/popup.js:158-162 | `TASK_COMPLETE:` gives back its message, trimmed |
| StockAgent.InsufficientToolsRoundTrip | assignment3_stock_graph/chrome_extension/popup.js:164-168 | `INSUFFICIENT_TOOLS:` gives back its advice, trimmed |
| StockAgent.TaskCompleteStopsAtNext | assignment3_stock_graph/chrome_extension/popup.js:158-160 | for every message holding a second `TASK_COMPLETE:`, the result is the text before that second prefix, trimmed |
| StockAgent.StopsAtNext | assignment3_stock_graph/chrome_extension/popup.js:139-166 | for every prefix and every body holding it again, `split(prefix)[1].trim()` is the text before the body's first occurrence of the prefix, trimmed |
| StockAgent.UnprefixedIsRejected | assignment3_stock_graph/chrome_extension/popup.js:170-173 | any other reply is rejected as an invalid format |
| StockAgent.PromptExampleIsRejected | assignment3_stock_graph/chrome_extension/popup.js:137-173 | a reply in the form of the system prompt's example (`get_stock_news`, a bar, then the JSON), which lacks the prefix, is rejected |
| StockAgent.IsPlot | assignment3_stock_graph/chrome_extension/popup.js:237 | a result is a plot exactly when it is a string starting with `data:image` (properties: `PlotExplained`, `ExplainsPlottedIff`, `ImageSourceAsWrittenIsBroken`) |
| StockAgent.StepLog | assignment3_stock_graph/chrome_extension/popup.js:233 | one log entry per completed round |
| StockAgent.StepLogEntries | assignment3_stock_graph/chrome_extension/popup.js:233 | entry i is `Iteration i+1: ` followed by round i's reply |
| StockAgent.CurrentQuery | assignment3_stock_graph/chrome_extension/popup.js:212-216 | the base query, followed by the previous result and the follow-up question unless that result is `null` (properties: `AnalysisQueries`, `ExplainsQueries`) |
| StockAgent.RunLoop | assignment3_stock_graph/chrome_extension/popup.js:208-266 | the loop from round k: ask, reply, process; a failure or a plot ends it, otherwise the next round, and five rounds end with the limit error (properties: `RunLoopExplains` and the `Explains*` lemmas) |
| StockAgent.Analysis | assignment3_stock_graph/chrome_extension/popup.js:176-266 | the analyze button: the model and stock-name guards, then `RunLoop` from the first round on the base query (properties: `AnalysisExplained`, `AnalysisGuards`, `AnalysisQueries`) |
| StockAgent.Analyze | assignment3_stock_graph/chrome_extension/popup.js:176-266 | the handler's loop computes exactly `Analysis`, and its `iterationResponses` is the log of the completed rounds' replies |
| StockAgent.RunRounds | assignment3_stock_graph/chrome_extension/popup.js:203-266 | the `while` loop over any rounds computes exactly `RunLoop` from the first iteration, and its log covers the rounds that completed |
| StockAgent.GenerationFailureExplained | assignment3_stock_graph/chrome_extension/popup.js:222 | a failing model request ends the run after logging that round's query |
| StockAgent.ProcessingFailureExplained | assignment3_stock_graph/chrome_extension/popup.js:254-257 | a failing `processLLMResponse` ends the run after logging that round's reply |
| StockAgent.PlotExplained | assignment3_stock_graph/chrome_extension/popup.js:237-253 | a plot in the newest round ends the run successfully with that image |
| StockAgent.NextRound | assignment3_stock_graph/chrome_extension/popup.js:259 | a result that is not a plot leads to the next round with it as the previous result |
| StockAgent.RunLoopExplains | assignment3_stock_graph/chrome_extension/popup.js:208-261 | every run of the loop consists of completed rounds, each as the handler runs it, ended as its outcome says |
| StockAgent.AnalysisExplained | assignment3_stock_graph/chrome_extension/popup.js:202-266 | the analyze button's run is explained round by round |
| StockAgent.ExplainsShape | assignment3_stock_graph/chrome_extension/popup.js:208-261 | every round but the last completed; the last logged its query and maybe its reply |
| StockAgent.ExplainsQueries | assignment3_stock_graph/chrome_extension/popup.js:212-216 | between one and five queries, each built from the result just before it |
| StockAgent.ExplainsReplies | assignment3_stock_graph/chrome_extension/popup.js:222-229 | every reply answers its round's query and every result processes its reply |
| StockAgent.ExplainsPlottedIff | assignment3_stock_graph/chrome_extension/popup.js:237-252 | the run plots exactly when some result is a plot, which is then the last and first one |
| StockAgent.ExplainsOutOfIterationsIff | assignment3_stock_graph/chrome_extension/popup.js:263-266 | the limit error is reported exactly when five rounds produced no plot |
| StockAgent.ExplainsNoPlot | assignment3_stock_graph/chrome_extension/popup.js:259-266 | replies that always process to non-plots run the loop to the limit |
| StockAgent.AnalysisGuards | assignment3_stock_graph/chrome_extension/popup.js:182-208 | no model or no stock name asks nothing; otherwise the model is asked one to five times |
| StockAgent.AnalysisQueries | assignment3_stock_graph/chrome_extension/popup.js:212-216 | the first query is the base query; each later one appends only the previous result, and a `null` result gives the base query again |
| StockAgent.AnalysisReplies | assignment3_stock_graph/chrome_extension/popup.js:220-223 | each reply is the trimmed answer to `SYSTEM_PROMPT` plus `Query: ` plus that round's query |
| StockAgent.AnalysisResults | assignment3_stock_graph/chrome_extension/popup.js:229 | each result is its reply processed by `processLLMResponse` |
| StockAgent.NoPlotMeansOutOfIterations | assignment3_stock_graph/chrome_extension/popup.js:237-266 | a model whose every answer processes to a non-plot, such as `TASK_COMPLETE:`, runs five rounds and ends with the limit error |
| StockAgent.ImageSourceAsWritten | assignment3_stock_graph/chrome_extension/popup.js:243 | the image `src` with the PNG prefix put in front unconditionally (property: `ImageSourceAsWrittenIsBroken`) |
| StockAgent.ImageSourceAsWrittenIsBroken | assignment3_stock_graph/chrome_extension/popup.js:243 | for every result the loop accepts as a plot, the `src` as written is not a PNG data URL |
| StockAgent.ImageSourceIsDataUrl | assignment3_stock_graph/chrome_extension/popup.js:243 | the corrected `src` is a PNG data URL for both a data URL and bare base64 |
| StockAgent.ImageSource | assignment3_stock_graph/chrome_extension/popup.js:243 | the corrected `src`: a data URL as it is, bare base64 with the prefix (properties: `ImageSourceIsDataUrl`, `PlottedDataUrlIsShown`) |
| StockAgent.PlottedDataUrlIsShown | assignment3_stock_graph/chrome_extension/popup.js:237-243 | a plotted PNG data URL is shown as it is |
| MathAgent.SumOf | assignment3/practise/main.py:62-68 | `sum(int(i) for i in lst)`: a list, tuple or string is iterated and each item made an int; anything else fails with `TypeError: '<type>' object is not iterable` (properties: `IntsOf`, `SumOfScalarNamesType`, `SumOfStringVisitsCharacters`) |
| MathAgent.SumOfScalarNamesType | assignment3/practise/main.py:62-68 | summing an int, a bool, a float or `None` fails with the `TypeError` naming that value's type, `'int'` for an int and `'NoneType'` for `None` |
| MathAgent.IntOf | assignment3/practise/main.py:31-32 | `if type(n) != int: n = int(n)`: an int is kept, a bool becomes 0 or 1, anything else goes through `int()` (properties: `IntsOf`, `IntsOfInts`, `KnownFunctionsOnInts`) |
| MathAgent.FibonacciOf | assignment3/practise/main.py:25-43 | the notebook's `generate_fibonacci`: the argument made an int, then the first max(n, 0) Fibonacci numbers (properties: `KnownFunctionsOnInts`, `Utilities.FibonacciListShape`) |
| MathAgent.LogOf | assignment3/practise/main.py:49-59 | `log_base_10`: the argument made an int, then the `ValueError` for values <= 0, otherwise `math.log10` (properties: `KnownFunctionsOnInts`, `Utilities.LogBase10`) |
| MathAgent.IntsOf | assignment3/practise/main.py:68 | on success every item is converted by `int`; on failure some item's conversion raised that error |
| MathAgent.IntsOfInts | assignment3/practise/main.py:68 | a list of ints converts to itself |
| MathAgent.FunctionCaller | assignment3/practise/main.py:78-89 | the dispatch table of three functions; any other name gives `Function <name> not found` (properties: `UnknownFunctionNotFound`, `KnownFunctionsOnInts`, `CallFunction`) |
| MathAgent.UnknownFunctionNotFound | assignment3/practise/main.py:86-89 | any other name gives `Function <name> not found` and computes nothing |
| MathAgent.KnownFunctionsOnInts | assignment3/practise/main.py:78-89 | on ints: the Fibonacci list, the logarithm's guard (an error exactly for n <= 0), and the sum |
| MathAgent.SumOfStringVisitsCharacters | assignment3/practise/main.py:68 | `sum_list` of a string converts each character in turn |
| MathAgent.CallFunction | assignment3/practise/main.py:78-89 | the dispatcher, with `generate_fibonacci`'s appending loop, computes `function_caller` |
| MathAgent.FunctionInfo | assignment3/practise/main.py:139 | `split(":", 1)[1]` of a call is the text after the prefix |
| MathAgent.CallStep | assignment3/practise/main.py:137-141 | the `FUNCTION_CALL:` branch: split at the first `\|`, both pieces stripped and stored, then `Invoke`; no bar is the unpacking error (properties: `CallStepAdvances`, `CallStepStoresPieces`, `CallStepWithoutBar`) |
| MathAgent.Invoke | assignment3/practise/main.py:141-154 | `ast.literal_eval` of the parameters, `function_caller`, then the round recorded; either raising ends the run (properties: `InvokeKeepsCall`, `CallStepAdvances`) |
| MathAgent.Respond | assignment3/practise/main.py:137-154 | the reply branches: a call, a `FINAL_ANSWER:` break, or the fallthrough that records the previous call again or raises `NameError` (properties: `RespondAdvances`, `FinalAnswerStops`, `FirstUnrecognisedReplyCrashes`, `StaleCallReportedAgain`) |
| MathAgent.CallStepAdvances | assignment3/practise/main.py:137-154 | a call that goes on stores name, params and result and appends one entry; one that stops leaves counter and history alone |
| MathAgent.RespondAdvances | assignment3/practise/main.py:137-154 | the same for every reply |
| MathAgent.Turn | assignment3/practise/main.py:123-154 | one round: the query, the model's reply stripped, then the call or answer branch (properties: `TurnAdvances`, `TurnsAdvance`, `Notebook.Round`) |
| MathAgent.TurnAdvances | assignment3/practise/main.py:123-154 | the same for a whole round |
| MathAgent.EntryLabelled | assignment3/practise/main.py:150-152 | round k's entry starts with `In the k+1 iteration` |
| MathAgent.TurnsAdvance | assignment3/practise/main.py:122-154 | every round of the notebook advances by one labelled entry or stops without claiming exhaustion |
| MathAgent.Loop | assignment3/practise/main.py:122-154 | the `while` loop as repeated `Turn` until it stops or the counter reaches 10 (properties: `LoopBound`, `LoopHistory`, `LoopNumbersEntries`, `Notebook.RunLoop`) |
| MathAgent.LoopBound | assignment3/practise/main.py:122-154 | the loop ends within ten rounds and is exhausted exactly when the counter reaches 10 |
| MathAgent.LoopHistory | assignment3/practise/main.py:150-154 | the history only grows, by one entry per counted round |
| MathAgent.LoopNumbersEntries | assignment3/practise/main.py:150-152 | entries stay numbered by their rounds |
| MathAgent.NotebookRun | assignment3/practise/main.py:72-154 | from the initial cell: at most ten rounds, exhausted exactly at ten, one entry per round, numbered in order |
| MathAgent.FinalAnswerIsNotCall | assignment3/practise/main.py:137-144 | a `FINAL_ANSWER:` reply is never taken as a call |
| MathAgent.FinalAnswerStops | assignment3/practise/main.py:144-146 | a `FINAL_ANSWER:` reply breaks out with counter and history unchanged |
| MathAgent.FirstUnrecognisedReplyCrashes | assignment3/practise/main.py:148 | a first reply that is neither a call nor an answer raises `NameError` |
| MathAgent.StaleCallReportedAgain | assignment3/practise/main.py:148-154 | a later such reply records the previous call again without running anything |
| MathAgent.CallStepStoresPieces | assignment3/practise/main.py:140 | name and params are the stripped pieces around the first bar, stored even if the call then raises |
| MathAgent.InvokeKeepsCall | assignment3/practise/main.py:141 | evaluating the parameters and calling the function never change `func_name` and `params` |
| MathAgent.FunctionCallSplit | assignment3/practise/main.py:137-140 | the same for a whole reply: the prefix, a name, a bar and params |
| MathAgent.CallWithoutBarCrashes | assignment3/practise/main.py:140 | a call without a bar cannot be unpacked and ends the run |
| MathAgent.CallStepWithoutBar | assignment3/practise/main.py:140 | text after the prefix that holds no bar ends the round with the unpacking error, the state untouched |
| MathAgent.RespondWithoutBar | assignment3/practise/main.py:137-140 | a stripped call reply without a bar ends the round with the unpacking error |
| MathAgent.NextQuery | assignment3/practise/main.py:124-128 | the base query in the first round, then the previous query grown by the joined history and `What should I do next?` (properties: `QueryHoldsHistory`, `QueryGrows`) |
| MathAgent.QueryHoldsHistory | assignment3/practise/main.py:127 | from the second round on, the query contains every history entry |
| MathAgent.QueryGrows | assignment3/practise/main.py:127-128 | the previous query is the start of the next one |
| MathAgent.Notebook.constructor | assignment3/practise/main.py:72-75 | the globals start as the initial state |
| MathAgent.Notebook.CallRound | assignment3/practise/main.py:137-141 | the call branch updates the globals as `CallStep` says |
| MathAgent.Notebook.InvokeRound | assignment3/practise/main.py:141-154 | evaluating, calling and recording update the globals as `Invoke` says |
| MathAgent.Notebook.Record | assignment3/practise/main.py:149-154 | `last_response` set, one entry appended, the counter one up |
| MathAgent.Notebook.HandleReply | assignment3/practise/main.py:137-154 | the reply branches update the globals as `Respond` says |
| MathAgent.Notebook.Round | assignment3/practise/main.py:123-154 | one pass of the loop body updates the globals as `Turn` says |
| MathAgent.Notebook.RunLoop | assignment3/practise/main.py:122-154 | the `while` loop ends in the state and with the outcome `Loop` gives |
| Numbers.FibPrefix | assignment3/utilities.py:26-29 | the first n Fibonacci numbers form a list of length n |
| Numbers.FibPrefixExtends | assignment3/utilities.py:27-28 | one more number appends the next Fibonacci number |
| Numbers.FibPrefixShape | assignment3/utilities.py:26-28 | the list starts `0, 1` and each later number is the sum of the two before |
| Numbers.SumAppend | assignment3/utilities.py:49 | the sum splits over concatenation |
| Numbers.SumFirst | assignment4/example_mcp_server_mac.py:22 | the sum is the first element plus the sum of the rest |
| Utilities.FibonacciList | assignment3/utilities.py:13-29 | `generate_fibonacci`'s value: the first max(n, 0) Fibonacci numbers |
| Utilities.FibonacciListShape | assignment3/utilities.py:19-29 | length max(n, 0); `[0]` for 1, `[0, 1]` for 2; starts `0, 1`; each element from index 2 is the sum of the two before |
| Utilities.GenerateFibonacci | assignment3/utilities.py:13-29 | the early returns and the appending loop compute the first max(n, 0) Fibonacci numbers |
| Utilities.LogBase10 | assignment3/utilities.py:32-40 | an error exactly for x <= 0, with the `ValueError` message; otherwise what `math.log10` gives |
| Utilities.SumList | assignment3/utilities.py:43-49 | `sum_list` on integers: the sum of the elements |
| Utilities.SumListSplits | assignment3/utilities.py:43-49 | the empty list sums to 0 and the sum splits over concatenation |
| McpServer.Add | assignment4/example_mcp_server_mac.py:17-18 | `a + b` (properties: `ArithmeticToolsAgree`) |
| McpServer.Subtract | assignment4/example_mcp_server_mac.py:25-26 | `a - b`, the inverse of `Add` (properties: `ArithmeticToolsAgree`) |
| McpServer.Multiply | assignment4/example_mcp_server_mac.py:29-30 | `a * b` (properties: `ArithmeticToolsAgree`) |
| McpServer.Mine | assignment4/example_mcp_server_mac.py:73-74 | `a - b - b` (properties: `MineSubtractsTwice`) |
| McpServer.AddList | assignment4/example_mcp_server_mac.py:21-22 | `sum(l)` (properties: `AddListIsRepeatedAdd`) |
| McpServer.ArithmeticToolsAgree | assignment4/example_mcp_server_mac.py:17-30 | `subtract` undoes `add`, `add` is symmetric, and multiplying by 2 is adding twice |
| McpServer.MineSubtractsTwice | assignment4/example_mcp_server_mac.py:73-74 | `mine(a, b)` is a minus twice b |
| McpServer.AddListIsRepeatedAdd | assignment4/example_mcp_server_mac.py:21-22 | `add_list` adds the elements one by one; on two elements it is `add` |
| McpServer.PowAdd | assignment4/example_mcp_server_mac.py:37-38 | a^(m+n) = a^m · a^n |
| McpServer.PowGrows | assignment4/example_mcp_server_mac.py:37-38 | a positive power of a base of magnitude at least 2 has magnitude at least 2 |
| McpServer.Power | assignment4/example_mcp_server_mac.py:37-38 | `int(a ** b)`: exact powers for b >= 0; for b < 0, CPython's float power: an overflow when a or b does not fit a double, the zero-base error, and otherwise the truncated float result (properties: `PowerMeaning`) |
| McpServer.PowMinusOne | assignment4/example_mcp_server_mac.py:37-38 | (-1)^n is 1 for even n and -1 for odd n |
| McpServer.BoundsOrdered | assignment4/example_mcp_server_mac.py:37-38 | 2^53, the largest exactly spaced double magnitude, is below the float overflow bound |
| McpServer.PowerTruncates | assignment4/example_mcp_server_mac.py:37-38 | for b < 0 and non-zero a, b representable, the result exists and is 0 exactly when the magnitude of a is at least 2 |
| McpServer.PowerOfUnit | assignment4/example_mcp_server_mac.py:37-38 | for -2^53 <= b < 0, 1 and -1 raised to b give 1 and (-1)^-b |
| McpServer.PowerOfZero | assignment4/example_mcp_server_mac.py:37-38 | 0 raised to a negative b within the double range raises `ZeroDivisionError: 0.0 cannot be raised to a negative power` |
| McpServer.PowerOfMinusOneRounded | assignment4/example_mcp_server_mac.py:37-38 | past 2^53 in magnitude, -1 raised to b gives 1, since `float(b)` is then even |
| McpServer.PowerMeaning | assignment4/example_mcp_server_mac.py:37-38 | for b >= 0, `power` is repeated multiplication; for b < 0, an overflow error when a or b is beyond the double range; within it, a zero base is the `ZeroDivisionError`, any other a gives 0 exactly when its magnitude is at least 2, 1 and -1 give ±1 exactly by parity while \|b\| <= 2^53, and -1 gives 1 past that |
| McpServer.Factorial | assignment4/example_mcp_server_mac.py:49-50 | `math.factorial(a)`: the `ValueError` for negative a, otherwise the product 1·…·a (properties: `FactorialMeaning`) |
| McpServer.FactorialMeaning | assignment4/example_mcp_server_mac.py:49-50 | for a >= 0, `factorial` is the product 1·…·a: positive and divisible by every k in 1..a |
| McpServer.CofactorStep | assignment4/example_mcp_server_mac.py:49-50 | multiplying in the next number keeps every smaller factor of the factorial |
| McpServer.Remainder | assignment4/example_mcp_server_mac.py:57-58 | an error exactly for b = 0; otherwise a = b·(a // b) + r with r on the side of b: 0 <= r < b or b < r <= 0 |
| McpServer.RemainderUnique | assignment4/example_mcp_server_mac.py:57-58 | any q and r with those properties are Python's quotient and remainder |
| McpServer.RemainderOfNegativeDivisor | assignment4/example_mcp_server_mac.py:57-58 | `7 % -3` is -2 in Python, unlike Dafny's 1 |
| McpServer.StringsToCharsToInt | assignment4/example_mcp_server_mac.py:85-86 | one code point per character |
| McpServer.CodePointsRoundTrip | assignment4/example_mcp_server_mac.py:85-86 | each code point is a valid code point and converts back to its character |
| McpServer.FibonacciNumbers | assignment4/example_mcp_server_mac.py:93-99 | the loop from `[0, 1]` and the `[:n]` slice give the first max(n, 0) Fibonacci numbers, so n = 1 gives `[0]` |
| McpServer.GetGreeting | assignment4/example_mcp_server_mac.py:130-131 | the greeting `Hello, <name>!` (properties: `GreetingNameRecoverable`) |
| McpServer.GreetingNameRecoverable | assignment4/example_mcp_server_mac.py:130-131 | the greeting is `Hello, ` + name + `!`, the name can be read back from it, and different names give different greetings |

## Left out

- Browser I/O is not modelled: `chrome.storage`, `chrome.tabs`, `webNavigation`, the DOM rendering (`loadBlockedSites`, `loadCollections`, the results page) and the `showFeedback` timers. Storage is the popup's fields; the redirect is the tab id a listener returns.
- Races between interleaved storage `get`-then-`set` callbacks are not modelled. Each handler runs atomically on the popup's fields.
- Every HTTP or model call is a parameter: `checkIfDistracting`'s and `checkWithGemini`'s request, `testGeminiConnection` (assignment2/popup.js:33-54, 70-103, left out entirely), the model in both agents, and `callFunction`'s tool server. `JSON.parse`, `JSON.stringify`, `ast.literal_eval`, `new URL(...)`, `int()` of a non-int, and the `repr` of a float are parameters too.
- Dates are not computed: `fromDate` and `toDate` are inputs of the analyze handler.
- `console.log`, `print` and `alert` are left out. In the Python loop, `print(f"  Result: {iteration_result}")` matters only for the `NameError` it can raise, and that is modelled.
- The API key handling of the stock extension (the `model` global it sets up) is the `hasModel` flag.
- Floating-point tools are left out: `divide`, `sqrt`, `cbrt`, `log`, `sin`, `cos`, `tan`, `int_list_to_exponential_sum`, and the value of `math.log10`, which is an opaque string.
- GUI, image and MCP plumbing are left out: `create_thumbnail`, `open_freeform`, `draw_rectangle_mac`, `type_text_mac`, the prompt templates, and the MCP registration. assignment3_stock_graph/server.py and gmail_client.py are not part of this model.
- MathAgent.SumOf: iterating a dict, a set or a generator is treated as "not iterable"; only lists, tuples and strings are iterated.
- Utilities.SumList: utilities.py's `sum_list` also sums floats; the model sums integers only.
- Utilities.GenerateFibonacci: utilities.py's `generate_fibonacci` is modelled on an int argument; a float argument, which `range` would reject, is not modelled.
- McpServer.Power: for negative b the result of `a ** b` is a float; the model keeps only what `int()` makes of it (0 or ±1) and the two errors, and does not model the float itself.
- The exception messages follow CPython 3.12's wording, written as `Class: message`; nothing else depends on that wording.
- `toLowerCase` is modelled on ASCII letters only; other characters are left unchanged.
- Strings are sequences of Unicode scalar values, so lone surrogates, which JavaScript and Python strings can hold, are not modelled.

## Findings

| source | as written | input that shows it | evidently intended | confidence | as-written member | corrected member |
|---|---|---|---|---|---|---|
| assignment3_stock_graph/chrome_extension/popup.js:243 | the image `src` is `data:image/png;base64,` followed by the result, but the loop only accepts results that already start with `data:image` (line 237) | a tool result `data:image/png;base64,AAAA` gives `data:image/png;base64,data:image/png;base64,AAAA`, which is not a PNG data URL | use a result that is already a data URL as it is, and prefix only bare base64 | not executed | StockAgent.ImageSourceAsWrittenIsBroken | StockAgent.ImageSourceIsDataUrl |
