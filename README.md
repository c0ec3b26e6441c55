# TaskWise core, modelled in Dafny

TaskWise is a Next.js task manager. It keeps tasks in a Prisma-backed table and appends task events to a JSON-lines file, `analytics.log`. A language model is used to suggest tasks, answer questions about them and write productivity reports. This project models the core of that system and proves properties of the model:

- the route handlers `POST`/`GET /api/tasks`, `GET /api/raw-logs`, `POST /api/chat-query`, `GET /api/analyze-logs`, `POST /api/suggest-task` and `GET /api/events`;
- the `add-due-dates` maintenance script;
- the client-side logic of the active-tasks page, the chat panel, the new-task page and the reporting page's chart builders.

How it is modelled:

- **Values and state.** JSON values are a `Json` datatype, and an object keeps its members in key-enumeration order. Route handlers are functions from their inputs to a `Response(status, body)`. The task table and the log file form one `TaskStore` object, whose methods insert rows, append log chunks and update due dates. The chat panel and the new-task form are classes whose methods are the UI events.
- **Error paths.** Every `try` block is a function that returns either a response or the value it throws. A separate function models the route's `catch`, and it reads the thrown value's `code`, `response` and `message` exactly as the route does.
- **Outside effects are parameters.** These are `JSON.parse`, `JSON.stringify`, `Date.prototype.toISOString`, `new Date(text)`, `Number(text)` and the language model (a function from its input to a completion). The datastore's and file system's results are inputs too: rows or a thrown error, and text or a thrown error.
- **Codec facts are requires.** No fact about the codec is assumed globally. The writer/reader round trip states what it needs as a requires: each serialised entry is one unpadded line without a newline, and parsing it gives the entry back.
- **JavaScript built-ins.** `String.prototype.trim` (ECMAScript WhiteSpace and LineTerminator code points), `split` on one character, `parseInt` (sign, `0x` prefix, leading digits), `typeof`, `Array.isArray` and truthiness are each written out.

Where the code and its written description disagree, the model follows the code:

- **`timeEstimate` is not range-checked.** `"0"` is stored as 0 and `"-5"` as -5. Only a falsy or non-numeric estimate becomes 30.
- **Two different notices for an empty log.** `analyze-logs` answers a blank log and a missing log with different report texts.

## Model

| member | source | states |
|---|---|---|
| JsText.Trim | src/app/api/raw-logs/route.ts:39-42 | the result is the infix of the text left between a whitespace prefix and a whitespace suffix; it is empty exactly when the text is all whitespace, otherwise starts and ends with non-whitespace (so both removed parts are the longest ones), and text already without surrounding whitespace is unchanged |
| JsText.TrimLine | src/app/api/tasks/route.ts:10 | one logged line followed by its `'\n'` trims back to the line |
| JsText.Utf16Length | src/app/tasks/new/page.tsx:43 | `.length` counts UTF-16 code units: between one and two per character, and exactly one per character exactly when no character lies beyond the Basic Multilingual Plane |
| JsText.Utf16LengthAppend | src/app/tasks/new/page.tsx:43 | the code-unit count of a concatenation is the sum of the counts |
| JsText.Split | src/app/api/raw-logs/route.ts:42 | `split('\n')` gives at least one piece and no piece contains the separator |
| JsText.JoinSplit | src/app/api/raw-logs/route.ts:42 | joining the pieces of a split with the separator gives the text back |
| JsText.SplitJoin | src/app/api/raw-logs/route.ts:42 | splitting a join of separator-free pieces gives the pieces back |
| JsText.ParseIntOfDecimal | src/app/api/tasks/route.ts:122 | `parseInt` reads back the decimal text of any integer, whatever non-digit text follows it, except an `x` or `X` right after a lone `0`, which starts a hexadecimal number |
| JsText.ParseIntNoDigits | src/app/api/tasks/route.ts:122 | `parseInt` of text starting with something other than whitespace, a sign or a digit is NaN |
| JsonValue.Lookup | src/app/api/analyze-logs/route.ts:89-92 | a property read finds a value exactly when the object has a member with that key |
| TaskModel.PriorityNamed | src/app/api/suggest-task/route.ts:136 | a name maps to a priority only when it is that priority's name |
| Http.InternalError | src/app/api/raw-logs/route.ts:56 | status 500 with `error: 'Internal Server Error'` and `details` the message or `'Unknown error'` |
| Http.UpstreamOrInternal | src/app/api/chat-query/route.ts:146-152 | an error carrying `response` is answered with its status, `error: 'OpenAI API Error'` and its data as `details`; any other error as the 500 above |
| LogReader.ParseEntries | src/app/api/raw-logs/route.ts:43-49 | no more entries than lines, and every entry kept is truthy |
| LogReader.ParseEntriesAppend | src/app/api/raw-logs/route.ts:43-49 | lines are parsed independently: entries of concatenated lines are the concatenated entries, in file order |
| LogReader.DropsBadLine | src/app/api/raw-logs/route.ts:43-49 | a line that fails to parse or parses to a falsy value is dropped with no other effect |
| LogReader.ParseEntriesAllKept | src/app/api/raw-logs/route.ts:43-49 | when every line parses to a truthy value, the entries are exactly those values in order |
| LogReader.RawLogsGet | src/app/api/raw-logs/route.ts:36-56 | status 200 unless the read fails with something other than ENOENT; a blank or missing file gives `[]`; other text gives the parsed entries; other read errors the 500 with details |
| LogReader.ChatLogEntries | src/app/api/chat-query/route.ts:89-106 | any read error, ENOENT or not, leaves the entry list empty; readable text gives the parsed entries |
| LogReader.ReadersAgree | src/app/api/chat-query/route.ts:90-99 | the raw-logs route and the chat-query reader give the same entries for every readable or missing file |
| LogReader.ReadBackAppended | src/app/api/tasks/route.ts:9-16 | a log built only by appends reads back, through raw-logs, as exactly the appended entries in append order, and through the chat reader too |
| TasksRoute.NormalizeTimeEstimate | src/app/api/tasks/route.ts:122 | 30 for a falsy estimate or a string `parseInt` rejects; a string's leading integer otherwise; a non-zero integer as itself |
| TasksRoute.NormalizeLeadingInteger | src/app/api/tasks/route.ts:122 | text starting with an integer normalises to that integer, with no range check (so `"0"` gives 0 and `"-5"` gives -5) |
| TasksRoute.NormalizeNonNumeric | src/app/api/tasks/route.ts:122 | text such as `"abc"` normalises to 30 |
| TasksRoute.NormalizeWithUnit | src/app/api/tasks/route.ts:122 | `"45min"` normalises to 45 |
| TasksRoute.SortNewestFirst | src/app/api/tasks/route.ts:199-203 | the rows sorted by `createdAt`, newest first, and a permutation of the table |
| TasksRoute.TaskStore.LogEvent | src/app/api/tasks/route.ts:9-16 | exactly one chunk, `stringify({timestamp, ...event}) + '\n'`, is appended after the earlier ones; a failed append leaves the file as it was |
| TasksRoute.TaskStore.Create | src/app/api/tasks/route.ts:112-140 | a falsy title gives 400 `Title is required` and nothing changes; a thrown body read, insert or duplicate id gives 500 and nothing changes; otherwise 201 with the new TODO row, whose due date is null exactly when the body's is missing or empty, the row appended to the table, and one TASK_CREATED line appended when the append succeeds (still 201 when it fails) |
| TasksRoute.TaskStore.List | src/app/api/tasks/route.ts:197-209 | 200 with every row newest first (a permutation of the table), or 500 when the query throws |
| TasksRoute.TaskStore.SetDueDate | scripts/add-due-dates.ts:16-19 | only the row with the id gets the due date; found exactly when some row has the id |
| TasksRoute.TaskStore.NullDueRows | scripts/add-due-dates.ts:6-10 | the rows whose due date is null, in table order |
| TasksRoute.NullDueTasks | scripts/add-due-dates.ts:6-10 | a row is selected exactly when it is in the table and its due date is null |
| TasksRoute.NullDueTasksAppend | scripts/add-due-dates.ts:6-10 | the selection of a concatenation is the concatenation of the selections, so it keeps table order |
| TasksRoute.StoreLogReadsBack | src/app/api/raw-logs/route.ts:36-50 | the log file of any store reads back through raw-logs as the entries logged, in order |
| EventsRoute.CalendarEvents | src/app/api/events/route.ts:50-55 | one event per row in row order, with the row's id and title, `start == end`, at the due date when there is one and the creation date otherwise |
| EventsRoute.EventsGet | src/app/api/events/route.ts:47-61 | 200 with the events exactly when the query succeeds, otherwise 500 `Internal Server Error` |
| EventsRoute.EventIgnoresOtherFields | src/app/api/events/route.ts:50-55 | only id, title, due date and creation date reach the calendar |
| AddDueDates.OneWeekFrom | scripts/add-due-dates.ts:12-13 | the backfilled date is later than now |
| AddDueDates.Backfilled | scripts/add-due-dates.ts:15-20 | afterwards every row has a due date; rows that had one are unchanged; the others differ only in their due date, which is the one shared value |
| AddDueDates.AddDueDates | scripts/add-due-dates.ts:5-23 | the loop of updates leaves the table backfilled with one week from now, and the count printed is the number of rows that had no due date |
| AddDueDates.SelectedIds | scripts/add-due-dates.ts:6-20 | with distinct ids, updating the selected rows by id is the backfill |
| AddDueDates.BackfillLeavesNoNull | scripts/add-due-dates.ts:6-10 | after the script the selection query finds nothing, so a second run updates no row |
| AddDueDates.BackfillIdempotent | scripts/add-due-dates.ts:15-20 | a second run leaves the table as the first left it |
| AddDueDates.EventsAfterBackfill | src/app/api/events/route.ts:53-54 | after the script every calendar event is at the task's original due date or at the backfilled one |
| ChatQuery.ChatTaskViews | src/app/api/chat-query/route.ts:75-86 | one projected row per task, with exactly the eight selected columns |
| ChatQuery.ViewsIgnoreDueAndUpdate | src/app/api/chat-query/route.ts:75-86 | tables differing only in due dates and update times give the model the same data |
| ChatQuery.ChatQueryPost | src/app/api/chat-query/route.ts:65-153 | a body that fails to parse or is null gives 500; a falsy question gives 400 `Question is required`; a failed query or model call goes to the catch-all; an empty answer gives 500 with its message; a non-empty answer is returned as `{answer}` |
| ChatQuery.UnreadableLogIsEmpty | src/app/api/chat-query/route.ts:100-106 | an unreadable log, for any reason, gives the same response as an empty one |
| ChatQuery.ModelAskedOnlyForQuestions | src/app/api/chat-query/route.ts:70-72 | without a question, or when the table cannot be read, the response does not depend on the model |
| AnalyzeLogs.ChartDataRule | src/app/api/analyze-logs/route.ts:89-95 | the check passes `chartData` exactly when it is an object, an array or null, and looks no deeper |
| AnalyzeLogs.CatchReportsOnlyMissingLog | src/app/api/analyze-logs/route.ts:99-109 | the catch answers with a `report` exactly for ENOENT, and then with status 200; every other error gets an error body without `report` |
| AnalyzeLogs.AnalyzeLogsGet | src/app/api/analyze-logs/route.ts:13-111 | a blank log gives the blank-log notice; a read error goes to the catch; an empty completion, unparsable JSON, a null report or a failed check gives 500 with its message; a report that passes is returned unchanged as `{report}` |
| AnalyzeLogs.ReportIsNoticeOrChecked | src/app/api/analyze-logs/route.ts:89-97 | whenever a body has `report`, the status is 200 and the report is a notice or passed the check |
| AnalyzeLogs.ModelNotAskedWithoutActivity | src/app/api/analyze-logs/route.ts:15-19 | a blank or missing log is answered with status 200 without depending on the model |
| SuggestTask.DecodeSuggestion | src/app/api/suggest-task/route.ts:133-141 | a value decodes into a typed suggestion exactly when it passes the route's check |
| SuggestTask.SuggestionRoundTrip | src/app/api/suggest-task/route.ts:133-143 | every suggestion written as JSON passes the check and decodes back to itself |
| SuggestTask.DecodeOfFields | src/app/api/suggest-task/route.ts:133-143 | any value, extra members or member order aside, whose five checked members are those of a suggestion passes the check and decodes to that suggestion |
| SuggestTask.ExtraMembersKept | src/app/api/suggest-task/route.ts:143 | extra members with keys of their own never make a suggestion fail the check |
| SuggestTask.DueDateRule | src/app/api/suggest-task/route.ts:137-138 | with the other fields right, the check passes exactly when `dueDate` is null or a string (a missing one fails); any number passes as the estimate |
| SuggestTask.SuggestTaskPost | src/app/api/suggest-task/route.ts:76-154 | a body that fails to parse or is null gives 500; a falsy input gives 400 `User input is required`; a model error goes to the catch-all; an empty completion, unparsable JSON, null or a failed check gives 500 with its message; a suggestion that passes is returned unchanged |
| SuggestTask.SuccessDecodes | src/app/api/suggest-task/route.ts:81-143 | a response built by the handler itself has status 200 or 400, and at 200 it decodes as a suggestion |
| ActivePage.PartitionMembers | src/app/tasks/active/page.tsx:48-51 | a task is in the active list exactly when it is in the list and not COMPLETED, and in the completed list exactly when it is in the list and COMPLETED |
| ActivePage.PartitionSnoc | src/app/tasks/active/page.tsx:49 | one more task at the end is pushed onto the list its status selects and the other list stays as it was |
| ActivePage.PartitionTasks | src/app/tasks/active/page.tsx:48-51 | the `reduce` loop computes the two lists |
| ActivePage.PartitionIsPermutation | src/app/tasks/active/page.tsx:48-51 | the two lists together are a permutation of the list, so their sizes add up |
| ActivePage.PartitionAppend | src/app/tasks/active/page.tsx:49 | the split of a concatenation is the concatenation of the splits, so relative order is kept |
| ActivePage.PatchedTaskListedCompleted | src/app/tasks/active/page.tsx:41-51 | the status the completion PATCH sends is the one that moves a task onto the completed list and off the active list |
| ActivePage.ActiveTasksPage.constructor | src/app/tasks/active/page.tsx:29 | the page starts with an empty list |
| ActivePage.ActiveTasksPage.TasksFetched | src/app/tasks/active/page.tsx:31-37 | a non-ok response keeps the old list; an ok one replaces it |
| ActivePage.ActiveTasksPage.Lists | src/app/tasks/active/page.tsx:48-51 | the rendered lists are the active and the completed tasks of the state's list in list order, together a permutation of it, split by status |
| ChatWindow.AiContent | src/components/ChatWindow.tsx:37-51 | the connection notice when `fetch` or `response.json()` throws or the body is `null` (reading `data.answer` throws); otherwise the text chosen for the parsed reply |
| ChatWindow.ReplyText | src/components/ChatWindow.tsx:39-44 | the fallback `Error: Could not get a response from AI.` whenever the reply is neither an ok one with a truthy answer nor one with a truthy `error` |
| ChatWindow.AnswerShown | src/components/ChatWindow.tsx:40-41 | an answer from the route is shown verbatim |
| ChatWindow.InternalErrorShown | src/components/ChatWindow.tsx:42-43 | the route's 500 is shown as `Error: Internal Server Error - {details}`, with the thrown message or `Unknown error` as details |
| ChatWindow.MissingQuestionShown | src/components/ChatWindow.tsx:42-43 | the route's 400 has no details, so it is shown as `Error: Question is required - Unknown` |
| ChatWindow.SentQuestionIsAsked | src/components/ChatWindow.tsx:24-35 | any question the panel sends passes the chat route's question check |
| ChatWindow.ChatPanel.constructor | src/components/ChatWindow.tsx:11-14 | the panel starts shut, with no messages, an empty input and no reply pending, so questions and replies alternate from the start |
| ChatWindow.ChatPanel.Toggle | src/components/ChatWindow.tsx:61 | the floating button flips the panel open or shut |
| ChatWindow.ChatPanel.Close | src/components/ChatWindow.tsx:85 | the header button shuts the panel |
| ChatWindow.ChatPanel.TypeInput | src/components/ChatWindow.tsx:121-129 | typing replaces the input, except while a reply is pending (the input is disabled) |
| ChatWindow.ChatPanel.Send | src/components/ChatWindow.tsx:23-35 | blank input or a pending reply: nothing changes and no request; otherwise the untrimmed input is appended as a user message and sent as the question, the input is cleared and loading set; questions and replies keep alternating |
| ChatWindow.ChatPanel.Settle | src/components/ChatWindow.tsx:37-54 | exactly one assistant message is appended, earlier messages unchanged, and loading ends |
| NewTaskPage.InitialFormMatchesRouteDefaults | src/app/tasks/new/page.tsx:31-37 | the initial form's priority and estimate are the route's defaults, MEDIUM and 30 |
| NewTaskPage.WithFieldCommutes | src/app/tasks/new/page.tsx:54-57 | edits of two different inputs give the same form in either order |
| NewTaskPage.WithFieldOverwrites | src/app/tasks/new/page.tsx:54-57 | a later edit of the same input replaces the earlier one, and no input edit changes the due date |
| NewTaskPage.DueDateSurvivesSubmit | src/app/tasks/new/page.tsx:71 | the date picked in the form is the date the tasks route stores (route.ts:130), provided `new Date` reads back what `toISOString` writes |
| NewTaskPage.SubmittedTitleAccepted | src/app/tasks/new/page.tsx:69-71 | a submitted form has a title the tasks route accepts, sent untrimmed |
| NewTaskPage.RequestedInputAccepted | src/app/tasks/new/page.tsx:43-45 | any idea sent for a suggestion passes the suggest route's input check |
| NewTaskPage.AcceptedSuggestionSubmitted | src/app/tasks/new/page.tsx:59-71 | after accepting, the submitted body carries the suggestion's title, description, priority and estimate |
| NewTaskPage.NewTaskForm.constructor | src/app/tasks/new/page.tsx:30-39 | the page starts with an empty idea, the initial form (empty title and description, MEDIUM, 30, no due date), no suggestion and nothing loading |
| NewTaskPage.NewTaskForm.SetUserInput | src/app/tasks/new/page.tsx:89 | typing in the idea box replaces the idea and nothing else |
| NewTaskPage.NewTaskForm.SuggestionTimerFired | src/app/tasks/new/page.tsx:41-52 | an idea longer than five UTF-16 code units after trimming is sent, untrimmed, and loading set; otherwise the suggestion is cleared and nothing is sent |
| NewTaskPage.NewTaskForm.SuggestionSettled | src/app/tasks/new/page.tsx:46 | a reply that decodes becomes the suggestion, a thrown request keeps the old one, and loading ends |
| NewTaskPage.NewTaskForm.ClearSuggestion | src/app/tasks/new/page.tsx:105 | the Clear button drops the suggestion |
| NewTaskPage.NewTaskForm.ChangeField | src/app/tasks/new/page.tsx:54-57 | only the named field of the form changes |
| NewTaskPage.NewTaskForm.ChangeDueDate | src/app/tasks/new/page.tsx:140 | only the form's due date changes |
| NewTaskPage.NewTaskForm.AcceptSuggestion | src/app/tasks/new/page.tsx:59-65 | the suggestion replaces the form (a null due date stays null) and the suggestion and the idea are cleared; with no suggestion nothing changes |
| NewTaskPage.NewTaskForm.AddTask | src/app/tasks/new/page.tsx:67-74 | no request while the title is blank after trimming; otherwise the form body, with the estimate through `Number` |
| ReportingPage.PriorityChartData | src/app/reporting/page.tsx:84-105 | no report gives empty labels and datasets; otherwise the priority keys as labels, then a "Created" and a "Completed" series with their colours |
| ReportingPage.PriorityBarsMatchLabels | src/app/reporting/page.tsx:86-103 | both series have one bar per label, and bar i holds the counts of the priority at label i |
| ReportingPage.PaletteFor | src/app/reporting/page.tsx:112-121 | the colours are the first `min(8, n)` palette entries |
| ReportingPage.CategoryPieChartData | src/app/reporting/page.tsx:107-126 | no report gives empty labels and datasets; otherwise the category keys as labels and one series of completions, palette colours and hover offset 4 |
| ReportingPage.PieSlicesMatchLabels | src/app/reporting/page.tsx:109-121 | slice i holds the completions of the category at label i; the colours are distinct and cover every slice exactly when there are at most eight |

## Left out

- **Language-model text.** Prompts, model names and temperatures are left out. So is the current date in the chat prompt, which is passed in as `now`. The model is an arbitrary function from its input to a completion.
- **Datastore behaviour.** Prisma's type checks (a non-string title, an unknown priority name) are left out, and so is schema-side stamping of `updatedAt`. Request fields are typed, and Prisma's validation errors appear only as the generic "the query throws" input.
- TasksRoute.NormalizeTimeEstimate: `parseInt` is exact here. Loss of precision above 2^53 and exponent notation for numbers of 10^21 and more are not modelled. Fractional numbers in a request's `timeEstimate` are not modelled either.
- **Date arithmetic.** AddDueDates.OneWeekFrom adds seven days of milliseconds. Daylight-saving shifts of `setDate` are not modelled.
- **Process failure in the script.** A failed `update` rejects the script's `main`, which exits the process. The model never fails, because its rows come from the table itself.
- NewTaskPage.NewTaskForm.SuggestionSettled: stores only replies that decode as a suggestion. The page also stores an error body from the route as a suggestion and renders its missing fields as empty.
- **Interpolating non-string values.** ChatWindow.AiContent: an `error` or `details` that is not a string is written by the `render` parameter, and no text for it is modelled.
- **Other reporting-page code.** The average-completion-time chart is left out because it uses `parseFloat`. The report fetch, the accordion state and the JSX are also left out. When `analyze-logs` answers with a notice string, the page stores that string as the report and its rendering reads missing properties; this is not modelled.
- **Concurrency and timing.** The 700 ms debounce of the suggestion request is left out. So are the order in which overlapping requests settle and concurrent appends to the log file.
- **Navigation and logging.** Navigation after submit (`router.push`) is left out, and so is all console logging.
- **Handlers whose bodies are not part of this model.** `PATCH` and `DELETE /api/tasks/{id}` are not modelled, including any stamping of `completedAt`. The active page's PATCH is modelled only as the request it sends.
- ReportingPage.PriorityChartData: the report is typed, so the builder is total. The page throws a TypeError when `chartData` is null or lacks `tasksByPriority` (`Object.keys(undefined)`), or when one of its entries is null; the check in analyze-logs lets such reports through, and this is not modelled.
- ReportingPage.CategoryPieChartData: the report is typed, so the builder is total. The page throws a TypeError when `chartData` is null or lacks `tasksByCategory`, or when one of its entries is null; this is not modelled.
- JsText.Utf16Length: strings are sequences of Unicode scalar values, so a lone UTF-16 surrogate in the input cannot be represented.
- **Rendering-only files.** Layouts, navigation bars, buttons and the API-doc page are not part of this model.
