# Document assistant front end: the sequential core, modelled in Dafny

The repository is a React front end for a document Q&A and search assistant.
Almost all of it is presentation. This project models the few pieces of
sequential logic inside it and proves what they promise:

- **AgentExport** (`agent_export.dfy`): the agent-file export modal.
  - The normalizer turns the listing endpoint's irregular response into the
    agent list. It takes an array as it is, then an array under `agents`,
    then one under `agentnames`, then the one-level flattening of any
    object's values, and otherwise gives nothing.
  - The export renames a trailing `.md`, in any case, to `.pdf`.
  - The class `ExportModal` holds the status text. It goes from exporting to
    uploaded or failed. A success arms a close timer, which clears the status
    and calls `onClose` once.
- **TableExport** (`table_export.dfy`): the table component's grid. The header
  is the columns in order. There is one body row per data row, with one cell
  per column, and a missing key gives a blank cell. Rows and columns are
  values, so rendering cannot change them.
- **AgeHistogram** (`age_histogram.dfy`): the table-export demo's 100 integer
  sample rows. It covers the `forEach` loop that counts ages into a map, the
  numerically sorted labels and the counts read off them.
- **DocumentPrompts** (`document_prompts.dfy`): the prompts panel. The class
  `PromptsPanel` holds the `prompts` state and the guarded update after the
  prompt-generation call. The list items come from splitting the string at
  each newline.
- **SearchChat** (`search_chat.dfy`): the search page's send step and
  completion step over `userPrompt`, `messages` and `showProgress`.
- **Wrappers** (`wrappers.dfy`): an `Option` type.

Collaborator calls are parameters of the model. This covers the listing call,
the population call, the prompt-generation call and the search call. Each is a
value saying how the awaited call settled, resolved with a payload or
rejected. The 1500 ms timer is an explicit `FireCloseTimer` step.

Behaviour of the code worth knowing:

- The normalizer does not check element types. An array response is returned
  whatever it holds, so the agent list is a `seq<JsValue>`.
  `FlatOfStringsIsStrings` shows it is a flat list of strings when the
  payload has the intended shape.
- The exported spreadsheet is built from the rows themselves, and the
  library takes its header from the rows' keys. Only the on-screen grid
  follows `columns`. The export uses sheet `"Sheet1"` and the download name
  `"table_export.xlsx"` (the constants `SheetName` and `ExportFile`).
- Nothing stops a second export click while one is in flight. `ExportModal`
  counts calls in flight and timers pending, so overlapping exports
  interleave with last-write-wins.
- The failure text is `e?.message || e`. It is the error's message when that
  is a non-empty string and the thrown value's string form otherwise.
- A search result whose `result` is the empty string is falsy. The code
  treats it like a malformed response.
- The completion commits the draft captured at send time (`newMessages`). It
  does not use the conversation as it is when the call settles.

## Model

| member | source | states |
|---|---|---|
| AgentExport.Lookup | app/UIComponents/UIDocComponents/AgentFileExportModal.tsx:33-34 | a property read that is not undefined returns a value stored under that key |
| AgentExport.Values | app/UIComponents/UIDocComponents/AgentFileExportModal.tsx:35 | `Object.values` keeps one value per property, in property order |
| AgentExport.NormalizeArrayUnchanged | app/UIComponents/UIDocComponents/AgentFileExportModal.tsx:32 | an array response is the agent list exactly, not deduplicated or sorted |
| AgentExport.AgentsKeyWins | app/UIComponents/UIDocComponents/AgentFileExportModal.tsx:33 | an array under `agents` is the agent list, whatever else the object holds (also an array under `agentnames`) |
| AgentExport.AgentNamesKeySecond | app/UIComponents/UIDocComponents/AgentFileExportModal.tsx:33-34 | without an array under `agents`, an array under `agentnames` is the agent list |
| AgentExport.LookupFirst | app/UIComponents/UIDocComponents/AgentFileExportModal.tsx:33-34 | a property read finds the first property with that key |
| AgentExport.GenericObjectFlattened | app/UIComponents/UIDocComponents/AgentFileExportModal.tsx:33-35 | any other object, including one whose `agents` is present but not an array, gives the one-level flattening of its values |
| AgentExport.NonObjectGivesNothing | app/UIComponents/UIDocComponents/AgentFileExportModal.tsx:31-39 | null, undefined, every primitive and a rejected listing call give the empty list |
| AgentExport.FlatAppend | app/UIComponents/UIDocComponents/AgentFileExportModal.tsx:35 | flattening distributes over concatenation, so values contribute in key order |
| AgentExport.FlatMembership | app/UIComponents/UIDocComponents/AgentFileExportModal.tsx:35 | an element is in the flattening if and only if it is a non-array value or an element of an array value |
| AgentExport.FlatOfStringsIsStrings | app/UIComponents/UIDocComponents/AgentFileExportModal.tsx:35 | when every value is a string or a list of strings, the agent list is a flat list of strings |
| AgentExport.TeamsExample | app/UIComponents/UIDocComponents/AgentFileExportModal.tsx:35 | `{teamA:["a","b"], teamB:["c"]}` gives `["a","b","c"]` |
| AgentExport.ExportFileName | app/UIComponents/UIDocComponents/AgentFileExportModal.tsx:64-67 | a name ending in `.md` in any case keeps its stem and gains `.pdf`, so it grows by one; any other name is unchanged; the result never ends in `.md` |
| AgentExport.ExportFileNameIdempotent | app/UIComponents/UIDocComponents/AgentFileExportModal.tsx:64-67 | renaming twice is renaming once |
| AgentExport.ExportFileNameExamples | app/UIComponents/UIDocComponents/AgentFileExportModal.tsx:64-67 | `report.md` and `report.MD` become `report.pdf`; `report.txt` is unchanged |
| AgentExport.ExportModal.constructor | app/UIComponents/UIDocComponents/AgentFileExportModal.tsx:22-23 | no agent options, an empty status, nothing in flight, no timer, no close |
| AgentExport.ExportModal.LoadAgents | app/UIComponents/UIDocComponents/AgentFileExportModal.tsx:25-41 | when open, the settled listing call replaces the options with the normalized list, or the empty list on rejection; when closed, nothing changes |
| AgentExport.ExportModal.BeginExport | app/UIComponents/UIDocComponents/AgentFileExportModal.tsx:62-69 | the status reads "Exporting to excel ..Pls wait." before the call, which is issued with scope "001", the agent and the renamed file |
| AgentExport.ExportModal.SettleExport | app/UIComponents/UIDocComponents/AgentFileExportModal.tsx:69-77 | success sets "Data uploaded successfully." and arms one close timer; failure sets "Failed to export data: " plus the error text and arms none |
| AgentExport.ExportModal.FireCloseTimer | app/UIComponents/UIDocComponents/AgentFileExportModal.tsx:71-74 | the timer clears the status and calls `onClose` once |
| AgentExport.SuccessfulExport | app/UIComponents/UIDocComponents/AgentFileExportModal.tsx:62-74 | a successful export shows exporting, then success, then an empty status, and closes exactly once |
| AgentExport.FailedExport | app/UIComponents/UIDocComponents/AgentFileExportModal.tsx:62-77 | a failed export shows exporting, then the failure message, and arms no timer, so `onClose` is never called |
| AgentExport.TimeoutFailureMessage | app/UIComponents/UIDocComponents/AgentFileExportModal.tsx:75-77 | an `Error("timeout")` gives "Failed to export data: timeout" |
| TableExport.RowCells | app/ui/TableExport.tsx:33-35 | a body row has exactly one cell per column, cell j being the value under column j |
| TableExport.Body | app/ui/TableExport.tsx:31-35 | one body row per data row, in data order, each as wide as `columns` |
| TableExport.RenderContents | app/ui/TableExport.tsx:25-35 | the header is `columns` in order; cell (i, j) is `data[i][columns[j]]`, and `None` if and only if the key is missing |
| TableExport.BodyAppend | app/ui/TableExport.tsx:31-32 | rows render independently: rendering two batches gives the two bodies in order |
| TableExport.RowCellsIgnoreOtherKeys | app/ui/TableExport.tsx:33-35 | keys outside `columns` do not affect a row's cells |
| TableExport.OneRowExample | app/ui/TableExport.tsx:25-35 | one row `{id, name}` under columns `["id","name"]` gives that header and one body row of both values |
| AgeHistogram.SampleRowAt | app/dashboard/tableexportdemo/page.tsx:37-44 | row i has id i+1 and age `20 + i % 40`, within 20 to 59, with its square and cube |
| AgeHistogram.OccursIffPresent | app/dashboard/tableexportdemo/page.tsx:60-63 | an age has a positive count if and only if some row has it |
| AgeHistogram.CountAges | app/dashboard/tableexportdemo/page.tsx:60-63 | the counting loop makes the keys exactly the ages present, each mapped to its number of rows |
| AgeHistogram.InsertSorted | app/dashboard/tableexportdemo/page.tsx:65 | inserting a new key keeps the labels strictly ascending and adds exactly that key |
| AgeHistogram.SortedLabels | app/dashboard/tableexportdemo/page.tsx:65 | the labels are strictly ascending and are exactly the counted keys |
| AgeHistogram.HistogramData | app/dashboard/tableexportdemo/page.tsx:71 | the chart data has one count per label, the count of that label |
| AgeHistogram.CountsAccountForEveryRow | app/dashboard/tableexportdemo/page.tsx:60-71 | when the labels list every age once, their counts add up to the number of rows |
| AgeHistogram.SumOfHistogram | app/dashboard/tableexportdemo/page.tsx:71 | the chart data adds up to the total count of its labels |
| AgeHistogram.PrefixOccurrences | app/dashboard/tableexportdemo/page.tsx:37-39 | among the first n rows, age 20+k occurs `(n + 39 - k) / 40` times |
| AgeHistogram.SampleAgeCount | app/dashboard/tableexportdemo/page.tsx:37-63 | ages 20 to 39 occur 3 times each and ages 40 to 59 occur 2 times each |
| AgeHistogram.AscendingRange | app/dashboard/tableexportdemo/page.tsx:65 | a strictly ascending list holding exactly a range of integers is that range in order |
| AgeHistogram.BuildHistogram | app/dashboard/tableexportdemo/page.tsx:60-71 | the counted keys are exactly the labels, which are 20 to 59 in order; the data matches the counts label by label, is 3 for the first twenty and 2 for the rest, and adds up to 100 |
| DocumentPrompts.Split | app/ui/documents/document-prompts.tsx:93 | there is one more item than there are newlines, and no item contains a newline |
| DocumentPrompts.JoinSplit | app/ui/documents/document-prompts.tsx:93 | joining the items with a newline gives back the prompts string |
| DocumentPrompts.SplitJoin | app/ui/documents/document-prompts.tsx:93 | splitting the join of newline-free items gives back those items |
| DocumentPrompts.PromptItems | app/ui/documents/document-prompts.tsx:93 | the list items of a prompts string number its newlines plus one and hold no newline |
| DocumentPrompts.InitialPromptsShowOneEmptyItem | app/ui/documents/document-prompts.tsx:39-93 | the initial empty prompts string shows exactly one empty item |
| DocumentPrompts.PromptsPanel.constructor | app/ui/documents/document-prompts.tsx:39 | the prompts start empty |
| DocumentPrompts.PromptsPanel.Refresh | app/ui/documents/document-prompts.tsx:42-70 | an empty file name makes no call; a thrown call, missing data, or null or undefined questions leave `prompts` unchanged; otherwise the questions replace it |
| DocumentPrompts.PromptsPanel.Items | app/ui/documents/document-prompts.tsx:93 | the rendered items join back to `prompts` and number its newlines plus one |
| SearchChat.TrimStart | app/dashboard/search/page.tsx:29 | the result is a suffix of the input whose removed prefix is all white space; it is empty if and only if the input is all white space, and otherwise starts with a non-space |
| SearchChat.TrimEnd | app/dashboard/search/page.tsx:29 | the result is a prefix of the input whose removed suffix is all white space; it is empty if and only if the input is all white space, and otherwise ends with a non-space |
| SearchChat.TrimEmptyIffBlank | app/dashboard/search/page.tsx:29 | a prompt trims to the empty string if and only if it is all white space |
| SearchChat.ResponseUsableIff | app/dashboard/search/page.tsx:37-41 | a result is usable with a given text if and only if the call resolved with `props`, `props.data` and `props.data.result` all present, the result is that text, and it is not empty |
| SearchChat.SearchPage.constructor | app/dashboard/search/page.tsx:10-13 | an empty prompt, no messages, progress flag raised |
| SearchChat.SearchPage.EditPrompt | app/dashboard/search/page.tsx:64 | typing sets the prompt |
| SearchChat.SearchPage.SendMessage | app/dashboard/search/page.tsx:28-52 | a blank prompt changes nothing and sends nothing; otherwise the draft is the messages plus the user's message, the progress flag is raised and the prompt is cleared, whatever the later outcome |
| SearchChat.SearchPage.CompleteSearch | app/dashboard/search/page.tsx:36-49 | a usable result commits the draft plus the response message and lowers the flag; a malformed or rejected one changes nothing |
| SearchChat.SendRound | app/dashboard/search/page.tsx:28-52 | one round from any starting conversation and progress flag: blank changes nothing; a usable result grows the messages by exactly the user's and the response messages, keeping the prefix; a failure keeps the messages and leaves the flag raised |

## Left out

- I/O and collaborators: the listing, population, prompt-generation and search calls are not modelled. Only how each one settles is, given as a parameter. Console logging is dropped.
- Timing: the 1500 ms delay is the constant `CloseDelayMs`. The timer firing is the explicit `FireCloseTimer` step, with no clock.
- Spreadsheet building and file writing (`json_to_sheet`, `book_new`, `book_append_sheet`, `writeFile`) are third-party library calls. `HandleExport` records only what is handed to them.
- The floating-point demo columns (`sqrt`, `log`, `exp`, `sin`, `cos`, `tan`) and the chart rendering are left out.
- `AgentExport.JsValue`: numbers are integers. NaN, fractions, functions and sparse-array holes are not modelled. They do not change which branch the normalizer takes, except that a NaN is falsy like 0.
- AgentExport.HasMdExtension: `toLowerCase` is reduced to comparing the last three characters with `.`, `m`/`M` and `d`/`D`. No other character lowercases to those letters.
- How React displays a cell value is not modelled. A cell is `None` only when the key is missing. React also shows nothing for a present `null`, `undefined`, `true` or `false`.
- `AgentExport.Thrown`: a thrown value whose `message` is truthy but not a string is not modelled. The code uses that value itself as the failure text.
- `SearchChat.SearchData`: a `props.data.result` that is truthy but not a string is not modelled. The code would commit it as the response text.
- `AgentExport.JsValue`: an object's property list may repeat a key, which no JS object can do. With a repeated key, `Lookup` reads the first entry and `Values` keeps every entry.
- `DocumentPrompts.PromptsFetch`: a `questions` value that is present but not a string is not modelled.
- `AgeHistogram.SortedLabels`: the order in which `Object.keys` lists the keys is taken as arbitrary. The sort makes the result independent of it.
- ExportModal.LoadAgents: issuing the listing call and its settling are one step, so a call that settles after the modal was closed is not modelled.
- PromptsPanel.Refresh: issuing the prompt-generation call and its settling are one step, so a response for an older file name that lands after a newer one and overwrites it is not modelled.
- Overlapping sends on the search page are not modelled. This includes `handlePromptClick` sending the stale prompt from before its own update, which depends on React scheduling. `SendRound` covers one send with no other send in between.
- Rendering: markdown, styling, JSX layout, the modal's open/close markup, the chat component, sign-in, authentication and the other pages.
