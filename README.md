# pptgen-temporal agent core in Dafny

pptgen-temporal is a PowerPoint and Excel editing agent. A language model reads
a set of decks and workbooks through four tools and edits them the same way:
`get_slide`, `get_excel_data`, `modify_slide` and `modify_excel`. This project
models the deterministic core that surrounds the model:

- **The durable orchestrator** (`PPTAgentWorkflow` in temporal_agent.py) is a
  class in `TemporalAgent`. Its fields are the same as the source's:
  - the message log;
  - the pending file lists;
  - the path mapping;
  - the memory snapshot;
  - the pending query and its flag.

  The `user_input` signal and each step of `run` are methods. A cycle does the
  following:
  1. It consumes the flag.
  2. It rebuilds the snapshot and the mapping.
  3. It rewrites turn 0 and appends the user turn.
  4. It alternates model replies with tool dispatch, appending one tool turn
     per call. After every modify call it rebuilds the snapshot and turn 0.
  5. It stops when a reply asks for no tool.
- **The BaseAgentWorkflow.py variant** is a class in `BaseWorkflow`. It
  computes the mapping in the signal handler and never refreshes the
  snapshot during a cycle.
- **The synchronous `ai_ppt_agent` loop** of vanilla_agent.py is modelled in
  `VanillaAgent`. Its budget counts user follow-ups, not model calls. A line
  reading `exit`, in any case, stops it.
- **The reply loop shared by all three** (`Conversation`) is a left fold over
  tool calls (`AnswerCalls`) inside a recursion over model replies
  (`Converse`). A `Variant` value records how the three copies differ:
  - how a saved slide is rendered back;
  - whether a modify call refreshes the snapshot, and with which prompt
    template.
- **The tool dispatcher** (`execute_tool`, three copies) and the four tool
  activities are in `Activities`. This includes:
  - the slide bounds check `0 <= i < count`;
  - the `"Error: …"` texts;
  - the failure text `"Error: …\n\nCode attempted to execute:\n" + code`.
- **The snapshot and mapping builders** are in `Snapshot`. Both are keyed by
  basename and the last entry wins. A file that cannot be opened lists one
  `"Error: …"` line.
- **The slide XML serialiser** `create_slide_xml` is in `SlideRendering`. It is
  a specification function with an imperative nested-loop builder proved
  equal to it.
- **The tool catalog** `define_tools` is in `Catalog`. tools.py,
  temporal_agent.py:175-270, vanilla_agent.py:127-222 and
  BaseAgentWorkflow.py:19-113 hold the same literal, so `Catalog.DefineTools`
  is that one catalog.

The model represents the system's collaborators as follows:

- **The language model** is a sequence of replies handed to each cycle.
  - Running out of replies ends a cycle as `AwaitingReply`.
- **The vanilla loop's `input()` lines** are a second sequence.
- **Documents** are values in a file-system map:
  - a deck is a list of slides, each a list of shapes;
  - a workbook is a list of named sheets with their rendered tables.
- **The `exec` of model-written code** is an editor oracle. It either returns
  the edited document or fails with a reason.
- **A `json.loads` failure or a missing argument key** raises in the source. In
  the model it is a `Fault`:
  - a Temporal cycle that hits a fault ends `Stuck`;
  - the vanilla loop ends `Crashed`.

The `user_input` handler overwrites a single pending slot
(`TemporalAgent.TwoSignals`). A signal delivered after a cycle has opened
changes the file lists that the next refresh reads, but not the cycle's
mapping (`TemporalAgent.SignalMidCycle`). The opening of a cycle is split at
the activity awaits of `run`. A signal delivered while the opening's snapshot
activity runs leaves the flag raised. The memory then describes the old file
lists and the mapping the new ones, and the new query is appended at the start
of this cycle. When the cycle ends with a reply that asks for no tool, the
next cycle starts at once and appends the new query again; the old query is
never appended (`TemporalAgent.QueryAnsweredTwice`,
`BaseWorkflow.QueryAnsweredTwice`).

## Model

| member | source | states |
|---|---|---|
| Common.Basename | temporal_agent.py:311 | the basename contains no `/`, is a suffix of the path, and is preceded by `/` when shorter than the path |
| Common.BasenameUnique | temporal_agent.py:311 | a `/`-free name after a directory prefix is its own basename |
| Common.NatToStringRoundTrip | activities.py:134 | the decimal text of a slide number reads back as that number |
| Common.IntToStringInjective | activities.py:80 | two indices with the same decimal text are equal |
| Common.AsciiLower | vanilla_agent.py:392 | lower-casing keeps the length, maps `A`-`Z` to `a`-`z` and keeps every other character |
| Documents.OpenDeck | activities.py:75 | opening succeeds exactly when the path holds a deck, and yields its slides |
| Documents.OpenWorkbook | activities.py:65 | opening succeeds exactly when the path holds a workbook, and yields its sheets |
| Documents.SheetNames | activities.py:66 | one name per sheet, in sheet order |
| Documents.FindSheet | activities.py:88 | the result is the first sheet with the name; when there is none, no sheet has that name |
| Documents.ReadSheet | activities.py:88 | a read succeeds only with a string path and a string sheet name, and returns the opened workbook and the index of a sheet with that name; conversely a workbook holding a sheet of that name reads as the first such sheet |
| Catalog.ParseTool | activities.py:176-199 | a recognised name is the name of the tool returned |
| Catalog.ParseToolName | temporal_agent.py:338-350 | each of the four tool names is recognised as its own tool |
| Catalog.UnknownExactly | temporal_agent.py:349-350 | a name is unrecognised exactly when it is none of the four tool names |
| Catalog.DefineTools | tools.py:1-95 | the catalog is exactly the four tools get_slide, get_excel_data, modify_slide and modify_excel, in that order |
| Catalog.CatalogOrder | tools.py:7-74 | the four entries carry the names get_slide, get_excel_data, modify_slide and modify_excel, in that order, and no name is listed twice |
| Catalog.Entry | tools.py:1-95 | every tool has an entry in the catalog |
| Catalog.RequiredAreDeclared | tools.py:12-92 | each entry's required list is exactly its declared properties, in order; every required key is declared; no key is declared twice |
| Catalog.DeclaredTypes | tools.py:13-89 | slide_index is declared integer; file_path, sheet_name and code are declared string |
| Catalog.DispatcherReadsRequired | activities.py:176-197 | the dispatcher reads exactly the catalog's required arguments for each tool |
| Activities.GetSlideXml | activities.py:72-82 | get_slide_xml: opens the deck and renders the slide at an integer index inside it; the answer is an `Error: …` text exactly when the deck does not open or the index is not an integer inside it |
| Activities.GetExcelTable | activities.py:85-91 | get_excel_table: a workbook holding a sheet of the given name answers the table of the first such sheet; any other read answers an `Error: …` text |
| Activities.ModifySlide | activities.py:94-107 | modify_slide, in the three copies: unless the edited deck is saved, the files are unchanged and the answer is an `Error: …` text |
| Activities.ModifyExcel | activities.py:110-123 | modify_excel: unless the edited sheet is saved, the files are unchanged and the answer is an `Error: …` text |
| Activities.ExecuteTool | activities.py:174-199 | execute_tool: a KeyError names a key the arguments lack, of a known tool; only modify_slide and modify_excel change files |
| Activities.TrySlideEdit | activities.py:96-105 | a slide edit is saved only for a string path and an integer index that lies within the opened deck; the index check fails exactly for an integer index outside the opened deck; an in-range edit whose code runs is saved as the editor returned it |
| Activities.TrySheetEdit | activities.py:112-121 | a sheet edit is saved only for a string path whose workbook opens and holds a sheet with the requested name; a readable sheet whose code runs is saved with the editor's table at the sheet's position |
| Activities.FirstMissing | activities.py:178-196 | the reported key is one the tool reads and is absent from the arguments; nothing is reported exactly when all are present |
| Activities.GetSlideBounds | activities.py:76-80 | get_slide returns the out-of-range text exactly when the index is not within 0 <= i < slide count; otherwise it returns the slide's XML |
| Activities.SlideXmlIsNotError | activities.py:202-229 | a rendered slide never equals an `"Error: …"` text |
| Activities.OutOfRangeInjective | activities.py:80 | different indices give different out-of-range texts |
| Activities.OutOfRangeOneLine | activities.py:80 | the out-of-range text is a single line |
| Activities.ExecFailureShape | activities.py:107 | a failed modify starts with `Error: ` and ends with the code banner followed by the code |
| Activities.ExecFailureMultiLine | activities.py:107 | a failed modify's text spans several lines, unlike the out-of-range text |
| Activities.ModifySlidePastIndexCheck | activities.py:98-107 | in the copies that do not re-read the saved file, once the index check passes modify_slide never returns the out-of-range text |
| Activities.ModifySlideBounds | activities.py:98-105 | in every copy an out-of-range index returns the out-of-range text, as get_slide does, and leaves the files unchanged; in the copies that do not re-read the saved file that text comes only from an out-of-range index |
| Activities.ReloadedOutOfRangeAfterSave | vanilla_agent.py:87-100 | vanilla modify_slide re-reads the saved file, so code that deletes the slide saves the edit and still reports the index out of range |
| Activities.ReloadedIsGetSlide | vanilla_agent.py:87-100 | once saved, vanilla modify_slide answers get_slide of the same file and index over the saved files, which is the refetched slide while the index stays in range |
| Activities.ModifySlideFrame | activities.py:96-102 | modify_slide changes no file but the one it names, and a saved edit leaves the edited deck there |
| Activities.ModifyExcelFrame | activities.py:112-119 | modify_excel changes no file but the one it names and no sheet but the named one, which keeps its name and position and holds the new table |
| Activities.ModifyFailureShape | activities.py:106-123 | a raising edit of a slide or a sheet leaves the files unchanged and returns the `Error: …` plus code-banner text |
| Activities.SlideReturnsAgree | temporal_agent.py:101-145 | when the saved deck holds the edited slide at its index, the three copies return the same text and files |
| Activities.ModifyThenGetSlide | activities.py:98-103 | after a saved slide edit, get_slide on the same file and index returns what modify_slide returned |
| Activities.ModifyThenGetSheet | activities.py:113-121 | after a saved sheet edit, get_excel_data on the same sheet returns what modify_excel returned, and the workbook keeps its sheet names |
| Activities.FindSheetRenamed | activities.py:118-119 | replacing a sheet's table does not change which sheet a name selects |
| Activities.UnknownToolText | activities.py:198-199 | any name that is not a tool returns exactly `"Unknown tool: " + name` and changes no file |
| Activities.RoutesByName | activities.py:176-197 | a tool name with its required arguments runs that tool on those arguments |
| Activities.MissingArgumentRaised | activities.py:178-196 | a known tool with a required argument missing raises for the first missing key |
| Activities.ReadToolsKeepFiles | activities.py:72-91 | get_slide and get_excel_data change no file |
| Activities.SlideFiveOfThree | activities.py:76-80 | get_slide of index 5 on a three-slide deck returns `Error: Slide index 5 out of range.` |
| Activities.DeleteFileUnknown | vanilla_agent.py:225-236 | a call of `delete_file` returns `Unknown tool: delete_file` |
| SlideRendering.SlideXml | activities.py:202-229 | create_slide_xml as a function: the slide and shapes openers, one shape element per shape numbered from 0, the closers |
| SlideRendering.CreateSlideXml | activities.py:202-229 | the nested-loop builder produces exactly the slide's XML |
| SlideRendering.AppendShape | activities.py:207-226 | one pass of the shape loop appends that shape's element with its position as id |
| SlideRendering.AppendParagraphs | activities.py:212-213 | the paragraph loop appends one paragraph line per paragraph, in order |
| SlideRendering.AppendRows | activities.py:218-223 | the row loop appends one row element per row, in order |
| SlideRendering.AppendRow | activities.py:219-223 | one row element wraps its cell lines |
| SlideRendering.AppendCells | activities.py:220-222 | the cell loop appends one cell line per cell, in order |
| SlideRendering.SlideXmlFrame | activities.py:204-228 | the XML starts with the slide and shapes openers and ends with the closers |
| SlideRendering.ShapesAt | activities.py:206-226 | the i-th shape's element, with id i, sits between the elements of the shapes before it and after it |
| SlideRendering.SlideXmlShapeAt | activities.py:206-208 | the same, inside the slide's frame |
| SlideRendering.TextBlockParagraphAt | activities.py:210-214 | the j-th paragraph's line sits between the lines of the paragraphs before it and after it |
| SlideRendering.TableBlockRowAt | activities.py:216-224 | the r-th row sits between the rows before it and after it |
| SlideRendering.RowCellAt | activities.py:219-223 | the c-th cell sits between the cells before it and after it |
| SlideRendering.BareShape | activities.py:208-226 | a shape with no text frame and no table emits only its opening and closing tags |
| Snapshot.ExtractPptxStructure | vanilla_agent.py:13-20 | extract_pptx_structure: the deck's basename with its slide labels, or with one `Error: …` line |
| Snapshot.ExtractExcelStructure | vanilla_agent.py:22-29 | extract_excel_structure: the workbook's basename with its sheet names, or with one `Error: …` line |
| Snapshot.MemoryOf | activities.py:127-151 | create_memory_snapshot as a function: the decks' entries, then the workbooks', assigned in order into one dictionary |
| Snapshot.PathMapping | temporal_agent.py:305-312 | create_file_path_mapping as a function: each file's basename assigned its path, in order |
| Snapshot.FillAppend | activities.py:131-149 | filling a dict from two lists is filling from the first and then from the second |
| Snapshot.FillLastWins | activities.py:131-149 | a key is present exactly when some entry has it, and it holds the value of the last such entry |
| Snapshot.SlideLabels | activities.py:134 | n labels, the i-th being `Slide ` followed by i+1 |
| Snapshot.DeckEntries | vanilla_agent.py:243-245 | one extract_pptx_structure entry per deck path, in order |
| Snapshot.WorkbookEntries | vanilla_agent.py:247-249 | one extract_excel_structure entry per workbook path, in order |
| Snapshot.CreateMemorySnapshot | temporal_agent.py:273-302 | the two filling loops produce the snapshot function's memory |
| Snapshot.SnapshotEntriesAt | activities.py:131-149 | deck entries come before workbook entries, keyed by basename, each with its listing |
| Snapshot.MemoryLastWins | activities.py:127-151 | a name is in the memory exactly when it is the basename of some file, and it lists the last such file |
| Snapshot.DeckListing | activities.py:131-139 | a deck whose basename no later file shares lists `Slide 1`..`Slide n`, or the one error line when it cannot be opened |
| Snapshot.WorkbookListing | activities.py:141-149 | a workbook whose basename no later workbook shares lists its sheet names, or the one error line when it cannot be opened |
| Snapshot.ThreeLabels | activities.py:134 | three slides are labelled `Slide 1`, `Slide 2`, `Slide 3` |
| Snapshot.SingleDeck | vanilla_agent.py:13-20 | the memory of a single deck is the one entry extract_pptx_structure gives |
| Snapshot.ThreeSlideDeck | temporal_agent.py:283-287 | a three-slide deck `a.pptx` gives memory `{"a.pptx": ["Slide 1", "Slide 2", "Slide 3"]}` |
| Snapshot.PathEntries | temporal_agent.py:309-311 | one basename-to-path entry per file, in order |
| Snapshot.CreateFilePathMapping | temporal_agent.py:305-312 | the filling loop produces the mapping function's dict |
| Snapshot.PathMappingLastWins | BaseAgentWorkflow.py:236-239 | a name is mapped exactly when it is some file's basename, to the last such file, whose basename is that name |
| Snapshot.MappingMatchesMemory | temporal_agent.py:385-396 | the mapping and the memory of the same file lists have the same names |
| Conversation.OrElse | temporal_agent.py:513-515 | a present signal field is taken, an absent one is defaulted |
| Conversation.StepCall | temporal_agent.py:447-497 | one pass of the tool loop: answer the call as a tool turn, refreshing the memory and turn 0 after a modify call where the variant refreshes, or record the fault that stops the loop |
| Conversation.AnswerCalls | temporal_agent.py:447-497 | the tool loop over a reply's calls, one step per call in order |
| Conversation.Converse | temporal_agent.py:430-506 | the reply loop: append each reply, answer its calls, and stop on a reply without calls, on a fault or when the replies run out; it uses at most the replies it is given |
| Conversation.StepCallShape | temporal_agent.py:447-497 | one call appends exactly one tool turn with the call's id and name, or faults and appends nothing; a faulted state stays put |
| Conversation.AnswerCallsAppends | temporal_agent.py:446-497 | k calls append tool turns answering them in call order and keep earlier turns; all k are appended exactly when no call faults |
| Conversation.AllAnswered | temporal_agent.py:446-497 | when all calls are answered, the appended turns match the calls one for one |
| Conversation.AnswerCallsSplit | temporal_agent.py:447 | answering a + b is answering a and then b |
| Conversation.FaultIsSticky | temporal_agent.py:449 | after a fault no further call is answered |
| Conversation.ReadCallKeepsState | temporal_agent.py:459-489 | a get_slide or get_excel_data call changes neither the files, the memory nor turn 0 |
| Conversation.ReadCallsKeepState | temporal_agent.py:459-489 | the same for any run of read calls |
| Conversation.NoRefreshKeepsPrompt | BaseAgentWorkflow.py:202-225 | without refresh, no tool call changes the memory or turn 0 |
| Conversation.StepKeepsMemoryCurrent | temporal_agent.py:459-464 | with refresh, a call keeps the memory equal to the snapshot of the current files |
| Conversation.RefreshKeepsMemoryCurrent | temporal_agent.py:459-464 | the same across any run of calls |
| Conversation.ModifyRefreshesPrompt | temporal_agent.py:459-489 | after an answered modify call, turn 0 is the variant's refresh prompt over the rebuilt memory and the unchanged mapping |
| Conversation.StepKeepsPromptCurrent | vanilla_agent.py:351-375 | a call keeps turn 0 consistent with the current memory |
| Conversation.AnswerCallsKeepPromptCurrent | vanilla_agent.py:351-375 | the same across any run of calls |
| Conversation.ConverseExtends | temporal_agent.py:430-506 | the reply loop only appends, keeps turn 0 a system turn, faults exactly when it is stuck, ends idle only on a reply with no calls, and consumes every reply when it is awaiting one |
| Conversation.ConverseAppendsReplies | temporal_agent.py:439-497 | every turn the reply loop appends is an assistant or a tool turn |
| Conversation.ConverseKeepsPrompt | BaseAgentWorkflow.py:181-228 | without refresh, the reply loop changes neither the memory nor turn 0 |
| Conversation.ConverseKeepsMemoryCurrent | temporal_agent.py:430-506 | with refresh, the memory stays the snapshot of the current files |
| Conversation.ConverseAppendsRounds | temporal_agent.py:446-506 | unless stuck, the appended turns are rounds: an assistant turn followed by exactly its calls' tool turns, in order |
| Conversation.RepliesAfterQuery | temporal_agent.py:430-506 | the reply loop keeps turn 0 the only system turn, keeps every earlier turn and appends no user turn |
| Conversation.OnlyFirstQueryTurn | temporal_agent.py:424-427 | one opening followed only by assistant and tool turns leaves its query as the only user turn it added |
| Conversation.OnlyQueryTurns | temporal_agent.py:424-427 | two openings with the same query, each followed only by assistant and tool turns, leave that query as every user turn they added |
| Conversation.OpenCycleShape | temporal_agent.py:402-427 | opening a cycle keeps the log, rewrites only turn 0 and appends exactly the query as a user turn |
| Conversation.CycleShape | temporal_agent.py:381-506 | a whole cycle extends the log by the user turn followed only by assistant and tool turns, in rounds, ending idle on a reply without calls |
| TemporalAgent.PPTAgentWorkflow.constructor | temporal_agent.py:355-363 | empty log, lists, mapping and memory, the catalog, no pending signal |
| TemporalAgent.PPTAgentWorkflow.Start | temporal_agent.py:371-376 | the log becomes the single greeting system turn |
| TemporalAgent.PPTAgentWorkflow.UserInput | temporal_agent.py:511-516 | the signal overwrites the query and the file lists, with defaults, sets the flag and leaves the log, memory and mapping alone |
| TemporalAgent.PPTAgentWorkflow.GetConversationHistory | temporal_agent.py:519-521 | returns the log and changes nothing |
| TemporalAgent.PPTAgentWorkflow.BeginCycle | temporal_agent.py:381-427 | clears the flag, rebuilds memory and mapping from the pending lists, rewrites turn 0 and appends the query |
| TemporalAgent.PPTAgentWorkflow.ConsumeSignal | temporal_agent.py:382 | clears the flag and changes nothing else |
| TemporalAgent.PPTAgentWorkflow.RefreshMemory | temporal_agent.py:385-389 | the memory becomes the snapshot of the lists as they are now; nothing else changes |
| TemporalAgent.PPTAgentWorkflow.RefreshMapping | temporal_agent.py:392-396 | the mapping becomes that of the lists as they are now; nothing else changes |
| TemporalAgent.PPTAgentWorkflow.RewritePrompt | temporal_agent.py:399-422 | only turn 0 changes, to the cycle prompt over the current memory and mapping |
| TemporalAgent.PPTAgentWorkflow.AppendQuery | temporal_agent.py:424-427 | the current query is appended as one user turn; nothing else changes |
| TemporalAgent.PPTAgentWorkflow.RecordReply | temporal_agent.py:439-443 | appends the assistant turn and nothing else |
| TemporalAgent.PPTAgentWorkflow.DispatchCall | temporal_agent.py:447-497 | one call changes the log, files and memory as the shared call step says |
| TemporalAgent.PPTAgentWorkflow.DispatchCalls | temporal_agent.py:446-497 | the call loop is the shared fold over the calls |
| TemporalAgent.PPTAgentWorkflow.Converse | temporal_agent.py:430-506 | the inner loop is the shared reply loop |
| TemporalAgent.PPTAgentWorkflow.Cycle | temporal_agent.py:379-506 | with no signal pending nothing changes; otherwise one whole cycle runs from the pending lists and query |
| TemporalAgent.RunCycle | temporal_agent.py:381-506 | one cycle of `run` as a function: open the cycle from the pending lists and query, then run the reply loop with refresh |
| TemporalAgent.CycleLog | temporal_agent.py:381-506 | a cycle's log is the old log plus the query plus rounds, and its memory is the snapshot of the files as they end |
| TemporalAgent.SignalMidCycle | temporal_agent.py:459-470 | a signal between two calls leaves the mapping from the first signal, and the refresh after a modify reads the second signal's lists |
| TemporalAgent.TwoSignals | temporal_agent.py:511-516 | two signals before a cycle leave only the second query in the log: the slot overwrites, it does not queue |
| TemporalAgent.SignalDuringOpening | temporal_agent.py:381-427 | a signal during the opening's snapshot activity leaves the memory of the first lists, the mapping of the second, the second query appended and the flag raised |
| TemporalAgent.QueryAnsweredTwice | temporal_agent.py:379-427 | after that signal, the first query is never appended; the flag stays raised exactly when the reply loop does not end idle, and after an idle end the next cycle starts at once with the second query appended again |
| BaseWorkflow.PPTAgentWorkflow.constructor | BaseAgentWorkflow.py:117-125 | empty log, lists, mapping and memory, the catalog, no pending signal |
| BaseWorkflow.PPTAgentWorkflow.Start | BaseAgentWorkflow.py:131-136 | the log becomes the single greeting system turn |
| BaseWorkflow.PPTAgentWorkflow.UserInput | BaseAgentWorkflow.py:231-240 | the signal overwrites the query and lists, with defaults, sets the mapping of the new lists and sets the flag |
| BaseWorkflow.PPTAgentWorkflow.GetConversationHistory | BaseAgentWorkflow.py:243-245 | returns the log and changes nothing |
| BaseWorkflow.PPTAgentWorkflow.BeginCycle | BaseAgentWorkflow.py:140-178 | clears the flag, rebuilds the memory only, rewrites turn 0 and appends the query |
| BaseWorkflow.PPTAgentWorkflow.ConsumeSignal | BaseAgentWorkflow.py:141 | clears the flag and changes nothing else |
| BaseWorkflow.PPTAgentWorkflow.RefreshMemory | BaseAgentWorkflow.py:144-152 | the memory becomes the snapshot of the lists as they are now; nothing else changes |
| BaseWorkflow.PPTAgentWorkflow.RewritePrompt | BaseAgentWorkflow.py:155-172 | only turn 0 changes, to the prompt over the current memory and mapping |
| BaseWorkflow.PPTAgentWorkflow.AppendQuery | BaseAgentWorkflow.py:175-178 | the current query is appended as one user turn; nothing else changes |
| BaseWorkflow.PPTAgentWorkflow.RecordReply | BaseAgentWorkflow.py:195-199 | appends the assistant turn and nothing else |
| BaseWorkflow.PPTAgentWorkflow.DispatchCall | BaseAgentWorkflow.py:203-222 | one call changes the log and files as the shared call step without refresh says |
| BaseWorkflow.PPTAgentWorkflow.DispatchCalls | BaseAgentWorkflow.py:202-225 | the call loop is the shared fold over the calls |
| BaseWorkflow.PPTAgentWorkflow.Converse | BaseAgentWorkflow.py:181-228 | the inner loop is the shared reply loop |
| BaseWorkflow.PPTAgentWorkflow.Cycle | BaseAgentWorkflow.py:138-228 | with no signal pending nothing changes; otherwise one whole cycle runs with the signal-time mapping |
| BaseWorkflow.RunCycle | BaseAgentWorkflow.py:140-228 | one cycle of `run` as a function: open the cycle with the signal-time mapping, then run the reply loop without refresh |
| BaseWorkflow.CycleLog | BaseAgentWorkflow.py:140-228 | a cycle's log is the old log plus the query plus rounds, and the memory and turn 0 stay those built at the cycle's start |
| BaseWorkflow.SignalDuringOpening | BaseAgentWorkflow.py:140-178 | a signal during the opening's snapshot activity leaves the memory of the first lists, the handler's mapping of the second in turn 0, the second query appended and the flag raised |
| BaseWorkflow.QueryAnsweredTwice | BaseAgentWorkflow.py:138-178 | after that signal, the first query is never appended; the flag stays raised exactly when the reply loop does not end idle, and after an idle end the next cycle starts at once with the second query appended again |
| VanillaAgent.Agent | vanilla_agent.py:319-401 | the `while iteration < max_iterations` loop as a function: a reply with calls is answered and the loop goes on; otherwise the next line ends the loop on `exit` or is appended and counted |
| VanillaAgent.AgentFollowsConverse | vanilla_agent.py:319-401 | below the budget, one pass is the shared reply loop followed by one user line |
| VanillaAgent.AgentToolStep | vanilla_agent.py:340-386 | a reply with calls is answered and the loop goes on without counting an iteration |
| VanillaAgent.AgentUserStep | vanilla_agent.py:388-401 | a reply without calls followed by a non-exit line appends both and counts one iteration |
| VanillaAgent.BudgetStops | vanilla_agent.py:318-401 | the iteration count never decreases or passes the budget, and the loop ends for the budget exactly when the count reaches it |
| VanillaAgent.FollowUpsCounted | vanilla_agent.py:340-401 | the iteration count grows by exactly the number of user turns appended |
| VanillaAgent.PromptStaysCurrent | vanilla_agent.py:351-375 | turn 0 is always the initial or the refresh prompt over the memory of the current files and the mapping computed once at the start |
| VanillaAgent.InitialState | vanilla_agent.py:272-316 | the log starts as exactly the initial prompt over the memory and mapping of the given lists, then the query |
| VanillaAgent.ExitAppendsNothing | vanilla_agent.py:390-393 | an `exit` line ends the loop with no user turn appended and no iteration counted |
| VanillaAgent.UnknownCallAnswered | vanilla_agent.py:225-236 | a call of an unknown name is answered with the unknown-tool text and nothing else changes |
| VanillaAgent.ThreeCallsUnderBudgetOne | vanilla_agent.py:318-401 | two tool rounds and an exit under a budget of one end with iteration 0: tool rounds are not counted |
| VanillaAgent.AnswerOne | vanilla_agent.py:341-383 | one pass of the call loop is the shared call step |
| VanillaAgent.AnswerAll | vanilla_agent.py:340-386 | the call loop is the shared fold over the calls |
| VanillaAgent.AiPptAgent | vanilla_agent.py:262-403 | the defaulted lists, the budget defaulting to 10, the once-built memory and mapping, and the loop give exactly the session `Agent` describes |

## Left out

- The language model call (`call_llm`, the OpenAI client): the model is a sequence of replies, each with content and an optional list of tool calls. The tool list passed to the model is not modelled.
- The Temporal runtime: `wait_condition`, `execute_activity`, timeouts, retries, replay, durability, and the worker and client entry points. Activities are plain calls. Waiting is the `Waiting` outcome of a cycle with no signal pending.
- Concurrency between the history query and a running cycle: the query is a read of the current log.
- Activities.ModifyThenGetSheet: takes pandas' `to_excel`/`read_excel` round trip to be lossless. The source's `get_excel_data` re-reads the saved file, so empty cells, formulas and column types may render differently from what `modify_excel` returned.
- Activities.GetSlideBounds: assumes `create_slide_xml` never raises. In the source, `hasattr(shape, "table")` raises for a graphic frame holding a chart or SmartArt, and `get_slide` then returns an `"Error: …"` text for an in-range index.
- Activities.ModifySlideBounds: under the same assumption `modify_slide` never fails after `prs.save`. In the source, rendering such a slide fails after the save and the answer is the failure text, although the file has changed.
- Activities.ModifyFailureShape: a sheet edit is one step that runs the code, writes the sheet and renders the table. In the source `to_markdown` runs after the `ExcelWriter` block has written the file, so a rendering failure there answers the failure text with the file already changed. The model does not capture that path.
- How python-pptx, openpyxl and pandas read and write files, `to_markdown` and `prs.save`: a document is a value in a file-system map, and a sheet's rendered table is a string.
- The `exec` of model-written code: it is an editor oracle that returns the edited deck and slide, or the edited table, or fails with a reason.
- The exact `json.dumps` text of the system prompt: turn 0 is a `Prompt(template, memory, mapping)` value. Each distinct prompt text of the source has its own template: the Temporal cycle and refresh prompts, the base workflow prompt, and the vanilla initial and refresh prompts.
- The text of library exceptions: the model's reasons are placeholder constants. Only their `"Error: "` framing is modelled.
- Common.AsciiLower: lower-cases ASCII letters only, not the full Unicode case mapping of Python's `str.lower`.
- JSON booleans and floats as tool arguments are not distinguished. Any argument value that is not a string or an integer fails inside the tool's try block, as a wrong-type error.
- An integer `sheet_name`, which pandas would read as a sheet position: the model selects sheets by name only.
- Tool arguments that parse as JSON but not as an object are treated like unparsable arguments, so the call faults (`Stuck` or `Crashed`). In the source an unknown tool name with such arguments is still answered "Unknown tool: …", because that branch never indexes the arguments.
- A signal whose key is present with the value `None`: the model treats it like an absent key.
- The vanilla loop raising out of `ai_ppt_agent` on a bad call is the `Crashed(fault)` end of a session. It does not model exception propagation.
- A Temporal or base workflow task that raises on a bad call is the `Stuck` outcome of its cycle. Temporal's retry of the task is not modelled.
- `print` output, the console, streamlit_app.py, app.py, BaseAgent.py and worker.py are not part of this model.
