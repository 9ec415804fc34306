# vxCube API client — a Dafny model

This project models the core of `vxcube_api`, the Python client of the Dr.Web
vxCube malware-analysis service, and proves properties of that model. It covers:

- `objects.py`: the domain objects. These are samples, CureIt records, tasks and
  analyses, with their slot-based `update`, the status flags, total progress, the
  merge of task payloads by id, restarts and the progress subscription.
- `utils.py`: keyword filtering, offset pagination (`iterator`, `all_items`) and
  the ASCII fallback for console messages.
- `raw_api.py`: building one HTTP request (headers, default keyword arguments,
  `output_file`) and turning the answer into a value or a `VxCubeApiHttpException`.
- `api.py`: the `return_objects` decorator, `login`, and the `samples` and
  `analyses` queries with their `*_iter` variants.
- `__main__.py`: how `download sample` chooses a sample, how `main` maps outcomes
  to exit codes, and the guard of `subscribe-analysis`.
- `cli_helpers.py`: the `Mutex` option class.

Python values are one datatype (`Values.Value`):
- A dictionary is an ordered entry list. Lookup takes the last entry with a key.
- Exceptions are a datatype, and an operation that can raise returns a `Result`.
- An object's state is the map of its set slots. Reading an unset slot is `AttributeError`.

`Task` and `Analysis` are classes because the source updates them in place. Their
methods are proved against the functions on attribute maps that carry the lemmas.
Loops in the source are `while` loops with invariants. Each is proved equal to a
recursive reference function. In the command line's `subscribe-analysis`, which is
itself a function, the two per-task line loops appear through that reference
function (`Cli.FirstFailing`), and the loop `Cli.BuildLines` is proved equal to it.

Inputs the source takes from outside are parameters:
- for an HTTP answer, the server's response;
- for the websocket, a `Socket` value (connect and send faults, the delivered
  frames, how iteration ends);
- for a consumer of a generator, a demand (how many events, or pages, it asks for).

Where the project's documentation and the code differ, the model follows the code:
- Progress events are only yielded. They do not update any task; only the final
  refresh does (`objects.py:457-471`).
- A CureIt record is rejected only when neither id is truthy. Both ids are accepted
  (`objects.py:107-108`).
- A retry is refused for a failed CureIt whose `retries` record has an "after" key,
  whatever count it holds (`objects.py:163`).
- Task payloads whose id no local task carries are dropped; no task is created
  (`objects.py:378-383`).

## Model

| member | source | states |
|---|---|---|
| Values.ConvertTime | vxcube_api/objects.py:37-40 | a falsy timestamp becomes None; any other is parsed |
| Values.Lookup | vxcube_api/api.py:82 | a key is found exactly when an entry carries it, and the value found is that entry's |
| Values.RemoveKey | vxcube_api/objects.py:362 | `pop` removes the key and leaves every other key's lookup unchanged |
| Values.RemoveKeyAbsent | vxcube_api/objects.py:407 | popping a key the dictionary lacks changes nothing |
| Values.SetDefaultLookup | vxcube_api/raw_api.py:125 | `setdefault` keeps an existing value and adds a missing key with the default; other keys are unchanged |
| Values.SetKey | vxcube_api/api.py:37 | assignment binds the key and leaves other keys unchanged |
| Values.Iterate | vxcube_api/objects.py:365 | `for` visits a list's items; only lists, dictionaries and strings are iterable |
| Utils.FilterDataDropsExactlyNone | vxcube_api/utils.py:47-49 | an entry is kept exactly when its value is not None |
| Utils.FilterDataKeepsOrder | vxcube_api/utils.py:48 | with no None value the keywords come back unchanged, in order |
| Utils.FilterDataFalsyExample | vxcube_api/utils.py:48 | empty list, empty string, empty dict and False are kept; None is dropped |
| Utils.Replace3DotsSpec | vxcube_api/utils.py:90-94 | a trailing ellipsis becomes "..."; nothing else changes; applying it twice equals once |
| Utils.Reencode | vxcube_api/utils.py:97-98 | the length is preserved |
| Utils.ReencodeSpec | vxcube_api/utils.py:97-98 | the result is ASCII; ASCII characters are kept and every other becomes "?" |
| Utils.MessageCompatSpec | vxcube_api/utils.py:101-104 | on a UTF-8 console, or for a non-string, nothing changes; otherwise the result is ASCII and a trailing ellipsis ends as "..." |
| Utils.PassThrough | vxcube_api/utils.py:53-54 | the filters passed on never hold `offset` or `count` |
| Utils.PaginateUnfold | vxcube_api/utils.py:56-66 | one loop turn: the request, its page's items, then the rest of the run at the next offset unless the page was short |
| Utils.Iterator | vxcube_api/utils.py:52-66 | the yielded items, the requests and the stop reason are those of the reference pagination |
| Utils.AllItems | vxcube_api/utils.py:69-87 | the returned list is every item of every page of the reference pagination, or the exception it raised |
| Utils.AppendEach | vxcube_api/utils.py:83-84 | appending item by item gives the list followed by the items |
| Utils.PaginateRequests | vxcube_api/utils.py:56-58 | request i asks for `count` items at offset start + i·count with the same filters |
| Utils.PaginateShape | vxcube_api/utils.py:57 | every request asks for `count` items with the caller's filters |
| Utils.PaginateStopRule | vxcube_api/utils.py:62-66 | a page that is empty or shorter than `count` ends the run, after its items are yielded |
| Utils.PaginateSliceServer | vxcube_api/utils.py:52-66 | over a server that slices a list by offset, the items are exactly that list from the start offset, in order |
| Utils.HundredItemsByNine | vxcube_api/utils.py:52-66 | 100 items served 9 per page arrive complete and in order |
| Objects.UpdatedAt | vxcube_api/objects.py:60-70 | a named slot holds the converted argument; other keys keep their values; non-slots are never added |
| Objects.AssignSlots | vxcube_api/objects.py:65-70 | the assignment loop computes the reference update |
| Objects.ConstructExample | vxcube_api/objects.py:57-70 | a keyword that is not a slot stays unset, and an empty timestamp becomes None |
| Objects.Attr | vxcube_api/objects.py:187-189 | reading a slot succeeds exactly when it is set |
| Objects.TaskFlagsSpec | vxcube_api/objects.py:203-229 | finished means status set and neither queued nor processing; processing is its negation; successful, failed and deleted are finished |
| Objects.AllFinishedSpec | vxcube_api/objects.py:385-391 | finished exactly when every task is; unfinished exactly when some task is unfinished and all before it are finished |
| Objects.ProgressSumBounds | vxcube_api/objects.py:395-400 | with percentages, the sum lies in [0, 100·n] and is 100·n once all tasks are finished |
| Objects.TotalProgressBounds | vxcube_api/objects.py:393-401 | the total lies in [0, 100]; it is 100 when all tasks are finished; with no tasks it divides by zero |
| Objects.TotalProgressExample | vxcube_api/objects.py:393-401 | tasks at 0, 35, finished and 65 give 50 |
| Objects.NewCureItSpec | vxcube_api/objects.py:102-108 | built exactly when either id is truthy; both ids are then set, None when absent; otherwise the binding error is raised |
| Objects.CureItReprSpec | vxcube_api/objects.py:110-119 | the text names the analysis when its id is truthy, the task otherwise, with the id and the status |
| Objects.CureItReprExample | vxcube_api/objects.py:110-119 | a task-bound record reads "CureIt (Task[2]) status: successful" |
| Objects.CanRetrySpec | vxcube_api/objects.py:161-165 | retry is possible exactly when deleted, or failed with an empty record or one without "after" |
| Objects.CanRetryExamples | vxcube_api/objects.py:161-165 | five status/retries combinations give their expected answers |
| Objects.SetDefaultsLookup | vxcube_api/objects.py:195-196 | each variable slot not supplied becomes None; supplied keywords are kept |
| Objects.FillDefaults | vxcube_api/objects.py:195-196 | the `setdefault` loop computes the reference defaults |
| Objects.TaskUpdatedSpec | vxcube_api/objects.py:193-197 | a status change wipes the unsupplied variable slots; without one they keep their values; other slots follow `update` |
| Objects.TaskUpdateExample | vxcube_api/objects.py:193-197 | a successful task moved to processing takes the new status and progress; message, verdict and rules become None |
| Objects.FirstMatch | vxcube_api/objects.py:379-380 | a match found lies within the scanned range |
| Objects.FirstMatchSpec | vxcube_api/objects.py:378-383 | the scan finds i exactly when task i has the id and every earlier task has another; it finds none exactly when every task has another |
| Objects.MergeById | vxcube_api/objects.py:378-383 | the number of tasks is unchanged |
| Objects.MergeByIdSpec | vxcube_api/objects.py:378-383 | only the first task with the id is updated; no match changes nothing; a match on an analysis without its own `id` raises `AttributeError` from the debug message and changes nothing |
| Objects.MergeOne | vxcube_api/objects.py:365-366 | merging one payload never changes the number of tasks |
| Objects.MergeTasks | vxcube_api/objects.py:365-366 | the payload loop never changes the number of tasks |
| Objects.MergeUnknownIds | vxcube_api/objects.py:364-366 | payloads naming ids no task carries change nothing and raise nothing |
| Objects.NewTasks | vxcube_api/objects.py:368-371 | one task is built per payload |
| Objects.AppendTask | vxcube_api/objects.py:369-370 | a payload that builds a task appends one fresh object holding the reference task state and keeps the earlier objects and their states; a payload that fails raises the reference error |
| Objects.UpdateAnalysis | vxcube_api/objects.py:361-372 | an update keeps the number of tasks |
| Objects.UpdateWithoutTasks | vxcube_api/objects.py:361-372 | without `tasks`, the slots are assigned and every task is kept |
| Objects.UpdateOneTask | vxcube_api/objects.py:361-383 | one payload updates the first task with its id, keeps the others, then assigns the slots; without the analysis's own `id` it raises `AttributeError` and changes nothing |
| Objects.Refreshed | vxcube_api/objects.py:436-437 | a refresh keeps the number of tasks |
| Objects.Restarted | vxcube_api/objects.py:403-412 | a restart keeps the number of tasks |
| Objects.RestartedSpec | vxcube_api/objects.py:403-412 | a response without `tasks` just updates the slots |
| Objects.RestartedOneTask | vxcube_api/objects.py:403-412 | one restarted task payload updates the first task with its id, keeps the others, then the remaining fields become slots; a payload without `id` raises `KeyError` and changes nothing |
| Objects.TaskRestartGuard | vxcube_api/objects.py:334-342 | a task neither failed nor deleted answers False and is unchanged; a bound failed or deleted task takes the response and answers True |
| Objects.StreamUrlSpec | vxcube_api/objects.py:445-449 | "https" maps to "wss" and any other scheme to "ws"; the rest of the address is kept |
| Objects.ReceiveSpec | vxcube_api/objects.py:457-462 | event i is message i decoded; an empty message ends the stream; the consumer never gets more than it asked for |
| Objects.ReceiveEnds | vxcube_api/objects.py:457-464 | the loop stops on a peer close only when the socket closes after the last message, and fails only on a message that does not decode or on another socket fault |
| Objects.ReceiveAll | vxcube_api/objects.py:457-464 | a consumer of everything gets every non-empty, decodable message, decoded and in order, and the peer's close ends the stream quietly |
| Objects.SubscribeFinished | vxcube_api/objects.py:440-442 | a finished analysis raises "All tasks finished" before any connection and changes nothing |
| Objects.ConverseSpec | vxcube_api/objects.py:451-464 | the connection is opened first; the id is sent only when opening worked and the id can be encoded, else `TypeError`; a peer close at any step ends the exchange without events; a failure comes from connect, encoding, send or the receive loop |
| Objects.SubscribeSpec | vxcube_api/objects.py:439-471 | connects to the stream address with the given headers, sends `{"analysis_id": id}` exactly when connected with an encodable id, and closes exactly once, as the last action |
| Objects.SubscribeRefreshes | vxcube_api/objects.py:457-471 | the state afterwards is always the refresh's; the events are the receive loop's once the id was sent, none otherwise |
| Objects.SubscribeRaised | vxcube_api/objects.py:451-471 | the refresh's exception wins; otherwise a peer close at connect, send or in the receive loop raises nothing, and any other connection, encoding or decoding failure is raised |
| Objects.SubscribeExample | vxcube_api/objects.py:439-471 | one message then a close: the consumer gets the message and the refresh is applied |
| Objects.Task.constructor | vxcube_api/objects.py:57-58 | a new task is `update` on an object with no slot set |
| Objects.Task.Update | vxcube_api/objects.py:193-197 | the new slots are the reference task update of the old ones |
| Objects.Task.Restart | vxcube_api/objects.py:334-342 | the new slots and the answer are the reference restart's |
| Objects.Analysis.constructor | vxcube_api/objects.py:367-372 | the slots are built from the keywords, and the task objects are the ones given |
| Objects.Analysis.Create | vxcube_api/objects.py:367-372 | a fresh task object per payload; the state equals the reference construction, errors included |
| Objects.Analysis.UpdateTaskById | vxcube_api/objects.py:378-383 | the tasks' new states are the reference merge's; on an error they are unchanged |
| Objects.Analysis.MergePayload | vxcube_api/objects.py:365-366 | one payload merged as the reference says, lenient or strict about its id |
| Objects.Analysis.MergeIncoming | vxcube_api/objects.py:365-366 | the payload loop makes the reference merge's states and error |
| Objects.Analysis.Update | vxcube_api/objects.py:361-372 | the new state and error are the reference update's; the task objects stay the same |
| Objects.Analysis.Refresh | vxcube_api/objects.py:436-437 | the new state and error are the reference refresh's |
| Objects.Analysis.Restart | vxcube_api/objects.py:403-412 | the new state is the reference restart's; True unless it raised |
| Objects.SumProgress | vxcube_api/objects.py:395-400 | the accumulator loop gives the reference sum of contributions, errors included |
| Objects.Analysis.TotalProgress | vxcube_api/objects.py:393-401 | the result is the reference total over the tasks' current attributes, errors included |
| Objects.Analysis.SubscribeProgress | vxcube_api/objects.py:439-471 | events, connection actions, new state and raised exception are the reference subscription's |
| Objects.Exchange | vxcube_api/objects.py:451-464 | connects with the given headers, encodes and sends the analysis id and reads the stream; events, actions and stop reason are the reference conversation's, and a missing `id` stops it before any connection |
| Objects.ReadFrames | vxcube_api/objects.py:457-462 | the receive loop yields the reference events and stop reason |
| RawApi.MergedHeaders | vxcube_api/raw_api.py:118-121 | the sent headers are the stored ones overridden by the call's |
| RawApi.WithDefaultsLookup | vxcube_api/raw_api.py:124-125 | a default reaches the call only for a keyword the caller did not pass |
| RawApi.ApplyDefaults | vxcube_api/raw_api.py:124-125 | the `setdefault` loop computes the reference defaults |
| RawApi.PreparedSpec | vxcube_api/raw_api.py:112-125 | `output_file` is taken out; a download streams unless the caller said otherwise; other keywords pass unchanged |
| RawApi.SummarizeFields | vxcube_api/raw_api.py:165-173 | the loop builds the reference per-field explanation |
| RawApi.SummarySnoc | vxcube_api/raw_api.py:165-173 | each field adds one tab-separated "[key] info" line, in order |
| RawApi.SummaryExample | vxcube_api/raw_api.py:163-173 | a string, a list and a dictionary field give "v1", "v1; v2" and "<UNKNOWN>" |
| RawApi.Decoded | vxcube_api/raw_api.py:139-175 | the call succeeds exactly when the answer is ok |
| RawApi.DecodedSpec | vxcube_api/raw_api.py:130-175 | success gives None for a file, else the JSON when not None, else the text or None; failure raises with the code, message precedence and body |
| RawApi.ApiRequest.constructor | vxcube_api/raw_api.py:54-63 | missing headers become an empty dictionary; the defaults are kept |
| RawApi.ApiRequest.Request | vxcube_api/raw_api.py:97-175 | the request sent carries the merged headers and the prepared keywords; the result is the decoded answer |
| RawApi.Authorization | vxcube_api/raw_api.py:208 | the header value starts with "api-key " |
| RawApi.AuthorizationExamples | vxcube_api/raw_api.py:208 | no key gives "api-key None"; a string key follows the prefix |
| RawApi.RawClient.constructor | vxcube_api/raw_api.py:188-193 | a fresh request object whose only header is the authorization for the key |
| RawApi.RawClient.SetApiKey | vxcube_api/raw_api.py:205-208 | the key is stored, and the shared headers get its authorization; nothing else changes |
| Api.CreateArgsSpec | vxcube_api/api.py:35-38 | with `add_raw_api` the object gets the shared reference; every other keyword is unchanged |
| Api.CreateAll | vxcube_api/api.py:43-48 | one object per element |
| Api.CreateAllSpec | vxcube_api/api.py:43-48 | object i is built from element i; the list fails exactly when some element fails |
| Api.HydrateSpec | vxcube_api/api.py:29-50 | a mapping gives one object, a list one object per element in order, anything else nothing |
| Api.ReturnObjects | vxcube_api/api.py:32-50 | the decorator gives the reference hydration |
| Api.CreateEach | vxcube_api/api.py:43-48 | the loop over the list gives the reference objects, or the first element's error |
| Api.SamplesShareRawApi | vxcube_api/api.py:35-48 | every sample of a listing holds the same shared reference |
| Api.LoginPayloadSpec | vxcube_api/api.py:75-79 | a credential is sent exactly when it is not None, and `new_key=False` is sent |
| Api.NewApiKeySpec | vxcube_api/api.py:80-86 | accepted exactly when the answer is a mapping with "api_key"; otherwise "Incorrect server response" |
| Api.Login | vxcube_api/api.py:62-86 | sends the filtered credentials; on acceptance it sets the returned key; otherwise it raises and leaves the key unchanged |
| Api.Listing | vxcube_api/api.py:154-162 | the filters in signature order, None when not passed |
| Api.RouteSpec | vxcube_api/api.py:149-163 | a truthy id fetches that resource; otherwise the listing sends the passed, non-None filters |
| Api.RouteRejectsUnknown | vxcube_api/api.py:133-134 | an undeclared keyword is refused |
| Api.QueryIter | vxcube_api/api.py:165-175 | the id is dropped and the query paginated with the page size |
| Api.IterArgsLacksId | vxcube_api/api.py:174-175 | a page's query never carries the id |
| Api.IterOnlyLists | vxcube_api/api.py:165-175 | every page is a listing query of the page size, even when an id was passed |
| Api.SamplesSpec | vxcube_api/api.py:133-163 | a truthy id asks the server for that sample and hydrates the answer, or raises its error; every sample of a list answer holds the shared reference |
| Api.AnalysesSpec | vxcube_api/api.py:191-212 | a truthy id asks for that analysis; otherwise the listing of the passed, non-None filters is asked for and its answer hydrated |
| Api.SamplesByIdExample | vxcube_api/api.py:149-151 | an id with filters fetches the one sample |
| Api.AnalysesListingExample | vxcube_api/api.py:206-212 | a listing drops the None filters and sends the rest |
| Cli.AllShareSpec | vxcube_api/__main__.py:219-220 | the samples agree exactly when every one has the first one's hash |
| Cli.ReportSpec | vxcube_api/__main__.py:224-233 | each hash is reported once, at its first sample, in order; every sample's hash is reported |
| Cli.ReportDistinct | vxcube_api/__main__.py:224-233 | the loop over the set of seen hashes reports the reference samples, errors included |
| Cli.SelectSampleSpec | vxcube_api/__main__.py:213-237 | one sample or a list of one is chosen; equal hashes choose the first; differing hashes report; an empty list finds nothing |
| Cli.DownloadSelection | vxcube_api/__main__.py:213-237 | the command's branches give the reference selection |
| Cli.AmbiguousExample | vxcube_api/__main__.py:218-234 | two samples with different hashes are both reported |
| Cli.ExitCodeSpec | vxcube_api/__main__.py:277-289 | 0 on return, -1 for API errors, -2 on interrupt, -3 otherwise; a requested exit keeps its code |
| Cli.FirstFailing | vxcube_api/__main__.py:177-191 | a per-task line loop raises exactly when some task's line cannot be built, and then raises the first such task's error |
| Cli.BuildLines | vxcube_api/__main__.py:179-180 | the `for task in analysis.tasks` loop raises exactly the reference line loop's exception: the first failing task's, none when every line is built |
| Cli.SubscribeCommandSpec | vxcube_api/__main__.py:177-191 | a task whose progress line cannot be built (no formattable `platform_code`, no hashable `id`) raises before any connection; otherwise, with a task processing the command is the subscription and connects to the stream address, and with none it opens no connection; unless something was raised, a task missing `id`, `platform_code`, `status` or `maliciousness` then raises from the final report |
| CliHelpers.LStripSpec | vxcube_api/cli_helpers.py:108 | `lstrip` keeps a suffix that does not start with whitespace; everything it cuts off is whitespace |
| CliHelpers.RStripSpec | vxcube_api/cli_helpers.py:108 | `rstrip` keeps a prefix that does not end with whitespace; everything it cuts off is whitespace |
| CliHelpers.StripSpec | vxcube_api/cli_helpers.py:108 | `strip` cuts whitespace from both ends only, leaving no whitespace at either end |
| CliHelpers.StripAppend | vxcube_api/cli_helpers.py:107-108 | stripping help plus a note that starts and ends with non-space only strips the help's front |
| CliHelpers.HelpTextSpec | vxcube_api/cli_helpers.py:107-108 | the help is the original help, front-stripped, followed by the note listing the excluded options |
| CliHelpers.HelpTextExample | vxcube_api/cli_helpers.py:107-108 | no help and [md5, sha1] give "Option is mutually exclusive with [md5, sha1]" |
| CliHelpers.StrItems | vxcube_api/cli_helpers.py:108 | join accepts exactly all-string lists and keeps them in order |
| CliHelpers.MutexArgs | vxcube_api/cli_helpers.py:103-105 | a missing list raises KeyError; an empty one raises the UsageError |
| CliHelpers.MutexArgsSpec | vxcube_api/cli_helpers.py:102-109 | an option made always excludes at least one option, in the given order, and carries the help and prompt given |
| CliHelpers.MutexArgsOfNames | vxcube_api/cli_helpers.py:103-108 | a non-empty list of names is accepted as it is |
| CliHelpers.FirstGiven | vxcube_api/cli_helpers.py:113-114 | a position found lies in range |
| CliHelpers.FirstGivenSpec | vxcube_api/cli_helpers.py:113-114 | finds the first excluded option given; none exactly when none is given |
| CliHelpers.ParseCheckedSpec | vxcube_api/cli_helpers.py:111-119 | refused exactly when the option and an excluded one are both given, naming the first excluded one given; given only an excluded one, the prompt is turned off; with none given nothing changes |
| CliHelpers.ParseCheckedExample | vxcube_api/cli_helpers.py:111-119 | `--id` with `--md5` is refused; `--md5` alone turns off the id prompt |
| CliHelpers.Mutex.constructor | vxcube_api/cli_helpers.py:103-109 | the option holds its name, excluded options, help and prompt |
| CliHelpers.Mutex.Create | vxcube_api/cli_helpers.py:102-109 | made exactly when the reference arguments are accepted; same fields, same errors |
| CliHelpers.Mutex.HandleParseResult | vxcube_api/cli_helpers.py:111-120 | the loop's new prompt and exception are those of the reference check; nothing else changes |

## Left out

- HTTP transport, with its one retry on a dropped connection: the server's answer is a parameter.
- Writing a download to a file: a successful download is modelled as returning None.
- Websocket I/O: the socket's behaviour is a `Socket` value; connection timeouts are not modelled.
- Regular file I/O, and the client configuration file of the command line.
- Parsing dates: `Time` wraps the original text.
- Version parsing, URL joining and the attribute-chain URL builder (`Wrap`): the stream URL is a scheme and a rest.
- Logging. The messages are not modelled, but the attribute reads in their arguments are: the `id` read by the debug messages of the modelled operations (vxcube_api/objects.py:339, 381, 404, 441, 452 and 454) raises `AttributeError` when unset, as in the source. Formatting errors inside the logging handler are not modelled.
- The `_raw_api` back-reference of an object is an opaque handle, so a subscription does not read the websocket address or the request headers from the client: `Subscribe`, `Exchange` and `Analysis.SubscribeProgress` take the stream base address and the headers as parameters, and nothing ties them to `RawApi.RawClient`'s stored headers.
- click plumbing: argument parsing, `pass_api`, and the standalone-mode handling of `UsageError`, `Abort` and `KeyboardInterrupt`.
- `subscribe-analysis` formatting of each event, and the `KeyError` it raises for an unknown task id; the command reads every event. The attribute reads of the progress lines built before the guard and of the final report lines (vxcube_api/__main__.py:177-180 and 188-191) are modelled (`Cli.FirstFailing`); their text is not.
- `Mutex.Create`: click's own processing of `prompt` (e.g. `prompt=True` becoming a text) is not modelled; the raw keyword is stored.
- The `*_iter` methods yield the raw page payloads rather than the hydrated objects. Each page is still hydrated, so errors from building objects are seen.
- `iterator` and `all_items` run under a `fuel` bound on the number of requests. A run that reaches it stops with `OutOfFuel`; the unbounded `while True` is not modelled.
- `iterator` keyword collisions (a caller passing `func` or `item_key` among the filters) are not modelled.
- `total_progress` is an exact rational number, not a float.
- JSON objects with repeated keys are entry lists whose last entry wins, as `json.loads` does.
- Operations that walk a dictionary's entries (`Summary`, `Iterate`, `len`) see one entry per repeated key, while `json.loads` keeps a single entry for a key: the two differ only for JSON text that repeats a key.
- `PyEq` compares two dictionaries entry by entry in order and with exact equality of the values, so `True` and `1` inside a dictionary differ, while Python's dict `==` ignores order and equates them; this matters only when a sha256 value or a task id is itself a dictionary.
- Only `Sample` and `Analysis` are hydrated by name. `Format`, `Platform`, `License` and `Session` go through the same generic `Hydrate`, which is not instantiated for them.
- `VxCubeApiHttpException` is assumed to subclass `VxCubeApiException`, so `main` exits with -1 for it. `errors.py` is not part of this model.
- JSON numbers with a fractional part are not values of the model: every number is an `Int`. So a fractional `progress` in `total_progress` and a float list item in a 400 answer's summary are not covered.
- `str()` of a timestamp or a nested value is approximated by `Values.Render`.
- Endpoints that only forward to the server are not modelled: uploading, starting an analysis, deleting, archives, dumps, CureIt download, and sessions.
