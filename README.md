# Similar-task dashboard: suggestion state, duplicate-scan cache, task paging

This project is a Dafny model of the client-side logic of a dashboard for a
vector-indexed task collection. The backend does all the similarity work.
The client holds three pieces of state logic, and the model covers them:

- **Add-task form** (`AddTask`, file `add_task.dfy`). While the user types in
  the subject or description field, a debounced lookup fetches similar tasks.
  It uses hybrid or semantic search, depending on a switch. The form
  normalises the rows into suggestions and shows them under the edited
  field. Picking a suggestion fills the form. The mode switch and a
  successful submit both clear the suggestions.
- **Duplicate finder** (`FindDuplicates`, file `find_duplicates.dfy`). It
  keeps one durable cache entry `{duplicates, timestamp, threshold}`. The
  entry is fresh for 24 hours (`CACHE_EXPIRY` = 86 400 000 ms), and only for
  its own threshold. A fresh entry is shown on opening and on each threshold
  change. A search uses the entry when the cache switch is on. Otherwise it
  calls the scan, turns the positional rows into pairs and overwrites the
  entry.
- **Task list** (`ListTasks`, file `list_tasks.dfy`). This is the limit,
  offset and total arithmetic of the paged table, and the page-size
  selector (a number, or show-all).

`Api` (file `api.dfy`) holds `Option`, the request `Call` that a component
issues, and `Response` (`Ok(data)` or `Err`).

State that the source updates in place is a class: `AddTask.Form`,
`AddTask.DebouncedSearch`, `FindDuplicates.Finder`,
`FindDuplicates.LocalStore` and `ListTasks.TaskTable`. Each method's
postcondition gives the whole new state. The pure parts are functions with
contracts, plus lemmas relating them: the normaliser, the lookup decision,
freshness, the tuple mapping and its inverse, the paging arithmetic, and the
table's state transitions.

Properties of the suggestion pipeline that follow from the code:

- Both fields share one debounced lookup (src/components/AddTask.tsx:31-53).
  Its pending call is a single slot, so a keystroke in one field drops a
  pending lookup for the other field (`AddTask.SharedSlotScenario`).
- There is no per-field debounce and no request sequence number.
  `AddTask.Form.Receive` applies any response that arrives, in whatever
  order responses arrive.
- The mode that picks the backend call and normalises its response is the
  mode captured when the debounced function was memoised
  (src/components/AddTask.tsx:27, 39, 52), not the mode at the time the
  response arrives. Switching modes creates a new instance. The old
  instance's pending call still runs later in the old mode
  (`AddTask.CapturedModeScenario`).
- A suggestion list is not always empty when its field's text is shorter
  than three characters. A response that arrives after the field was
  shortened refills the list (`AddTask.LateResponseScenario`).

Time, the backend and the user are inputs to the model. The caller passes
`now` (a millisecond clock reading), each backend `Response`, and each UI
event as a method call. Methods return the `Call` they issue, so contracts
can say whether a backend call happens and with which arguments.

## Model

| member | source | states |
|---|---|---|
| `AddTask.ProcessSearchResults` | src/components/AddTask.tsx:22-29 | The output has the same length and order as the rows. Each suggestion takes its row's id (0 if missing), subject and description ("" if missing). Its similarity is the row's `score` in hybrid mode and its `similarity` otherwise, 0 if missing. |
| `AddTask.ProcessSearchResultsAppend` | src/components/AddTask.tsx:22-29 | Normalising a concatenation gives the concatenation of the normalised parts. Each row is normalised on its own, in place. |
| `AddTask.Issue` | src/components/AddTask.tsx:33-41 | No backend call is made exactly when the query is shorter than 3. Otherwise the call is `hybridSearch(query, 5, 0.5)` in hybrid mode and `searchSimilarTasks(query, 0.7, 5)` in semantic mode. The lookup carries the field and the same mode that will normalise its response. |
| `AddTask.DebouncedSearch.constructor` | src/components/AddTask.tsx:31-32 | A new debounced instance captures the current mode and has nothing pending. |
| `AddTask.DebouncedSearch.Schedule` | src/components/AddTask.tsx:122-135 | A keystroke in the subject field (line 122) or the description field (line 135) replaces the single pending call with the latest text and its field, whichever field was pending before. |
| `AddTask.DebouncedSearch.Fire` | src/components/AddTask.tsx:33-41 | When the quiet period ends, the pending call runs with the captured mode and the slot empties. A query shorter than 3 empties only that field's list and calls nothing. Otherwise the returned lookup is `Issue` of the pending text, field and captured mode, and the form is unchanged. With nothing pending, nothing happens. |
| `AddTask.Form.constructor` | src/components/AddTask.tsx:16-20 | The form starts empty in semantic mode with empty lists. Its memoised lookup belongs to semantic mode. |
| `AddTask.Form.SetSuggestions` | src/components/AddTask.tsx:45-47 | One field's list is replaced. The other list and the rest of the form are unchanged. |
| `AddTask.Form.OnFieldChange` | src/components/AddTask.tsx:119-123 | Editing a field sets that field's value and schedules the memoised lookup with the new text. The other field and both lists are unchanged. |
| `AddTask.Form.Receive` | src/components/AddTask.tsx:43-50 | A successful response replaces only the lookup's field list, with the rows normalised in the lookup's mode. A failed response leaves both lists and the form unchanged. |
| `AddTask.Form.SelectSuggestion` | src/components/AddTask.tsx:70-82 | Picking a subject suggestion sets both fields from it and empties both lists. Picking a description suggestion sets only the description and empties only the description list. |
| `AddTask.Form.OnFinish` | src/components/AddTask.tsx:55-68 | Submitting calls `addTask(subject, description)`. Success resets both fields and empties both lists. Failure leaves fields and lists unchanged. Loading is false at the end on both paths. |
| `AddTask.Form.ToggleMode` | src/components/AddTask.tsx:110-114 | The flag becomes the switch value and both lists are emptied. A new debounced instance is memoised exactly when the mode changes (the `useMemo` dependency). |
| `AddTask.SharedSlotScenario` | src/components/AddTask.tsx:31-53 | Subject "abc", then description "xyz" within one quiet period: only the description lookup is issued. |
| `AddTask.CapturedModeScenario` | src/components/AddTask.tsx:52 | A lookup scheduled in semantic mode fires after the switch was set to hybrid. It still calls semantic search, and its rows are normalised from `similarity`. |
| `AddTask.LateResponseScenario` | src/components/AddTask.tsx:33-47 | A lookup for "abcd" is issued; the field is then shortened to "ab", which clears the list; the late response for "abcd" refills it, so the list is non-empty while the field holds fewer than 3 characters. |
| `FindDuplicates.FreshDuplicates` | src/components/FindDuplicates.tsx:44 | The stored entry is fresh iff it exists, `now - timestamp < 86 400 000` and its threshold equals the requested one. When fresh, it offers exactly its stored duplicates. |
| `FindDuplicates.FreshUntilExpiry` | src/components/FindDuplicates.tsx:17 | An entry written at time T serves its own threshold at every clock reading before T + 24 h, with no lower bound. It serves no other threshold. |
| `FindDuplicates.FormatDuplicates` | src/components/FindDuplicates.tsx:66-70 | The output has the same length and order as the rows. Each pair has `task1 = (item[0], item[3], "")`, `task2 = (item[1], item[4], "")` and `similarity = item[2]`. |
| `FindDuplicates.FormatThenTuples` | src/components/FindDuplicates.tsx:66-70 | The tuple mapping loses nothing: the positional rows can be read back from the pairs. |
| `FindDuplicates.TuplesThenFormat` | src/components/FindDuplicates.tsx:66-70 | A list of pairs is the formatting of its own rows iff every description in it is empty. So the mapping's image is exactly the pairs without descriptions. |
| `FindDuplicates.LocalStore.constructor` | src/components/FindDuplicates.tsx:40 | The storage slot holds the given entry, or nothing. |
| `FindDuplicates.Finder.constructor` | src/components/FindDuplicates.tsx:20-23 | The screen opens at threshold 0.9 with the cache switch on. It shows the stored duplicates if they are fresh for 0.9, and nothing otherwise. |
| `FindDuplicates.Finder.ShowFreshEntry` | src/components/FindDuplicates.tsx:39-48 | On load or threshold change, a fresh entry replaces the display. A missing or unusable entry leaves the display as it was. Nothing is written. |
| `FindDuplicates.Finder.SetThreshold` | src/components/FindDuplicates.tsx:92 | The threshold becomes the slider value. The fresh-entry effect runs only if the value changed. The store is not written. |
| `FindDuplicates.Finder.SetUseCachedData` | src/components/FindDuplicates.tsx:99 | The cache switch is set. Nothing else changes. |
| `FindDuplicates.Finder.HandleSearch` | src/components/FindDuplicates.tsx:50-83 | With the switch on and a fresh entry, the display becomes the cached duplicates; no call is made and the store is unchanged. In every other case, `findDuplicates(threshold)` is called. On success the display is the formatted rows and the store holds `{formatted, completedAt, threshold}`. On failure neither the display nor the store changes. Loading is false at the end of every path. |
| `FindDuplicates.CacheScenario` | src/components/FindDuplicates.tsx:50-76 | Entry for 0.9, one hour old. A search at 0.9 makes no call and displays the cached pairs. After the slider moves to 0.8, a search calls the scan, and the entry is overwritten for 0.8. |
| `FindDuplicates.FreshWriteScenario` | src/components/FindDuplicates.tsx:54-76 | With no entry, a search calls the scan and stores its pairs with the completion time. A second search at that time, for the same threshold, makes no call and displays those pairs. |
| `FindDuplicates.StaleScenario` | src/components/FindDuplicates.tsx:54-65 | Entry for 0.9, 25 hours old. A search at 0.9 calls the scan, even with the cache switch on. |
| `ListTasks.ListRequest` | src/components/ListTasks.tsx:27-28 | The limit is 1000 in show-all mode and `pageSize` otherwise. The offset is 0 in show-all mode and `(page-1)*pageSize` otherwise. |
| `ListTasks.PageTotal` | src/components/ListTasks.tsx:36 | The total is the count fetched in show-all mode. Otherwise it is the request's offset plus the count. |
| `ListTasks.PagesAreAdjacent` | src/components/ListTasks.tsx:28 | Page p+1 starts where page p ends, so paging forward skips and repeats no task. |
| `ListTasks.TotalCoversPage` | src/components/ListTasks.tsx:27-36 | For page >= 1 and pageSize >= 0, the offset is non-negative and the total is at least the number of tasks fetched. |
| `ListTasks.Fetch` | src/components/ListTasks.tsx:31-47 | An array response makes the tasks the data and makes `page` current. It sets the total from `PageTotal` and keeps pageSize and mode. A non-array or failed response empties the tasks and keeps the pagination. |
| `ListTasks.ChoosePageSize` | src/components/ListTasks.tsx:60-69 | Show-all sets the mode and sizes the page to the tasks on display. A number clears the mode and sets that size. Both make page 1 current and keep the tasks and the total. |
| `ListTasks.FetchKeepsConsistent` | src/components/ListTasks.tsx:31-47 | Fetching a page >= 1 with size >= 0 keeps the table consistent: current page >= 1, size >= 0, total >= number of tasks shown. |
| `ListTasks.ChooseKeepsConsistent` | src/components/ListTasks.tsx:60-69 | Choosing show-all, or a size >= 0, keeps the table consistent. |
| `ListTasks.TaskTable.constructor` | src/components/ListTasks.tsx:14-17 | The table opens loading, with no tasks, page 1 of size 10, total 0, not in show-all mode. |
| `ListTasks.TaskTable.FetchTasks` | src/components/ListTasks.tsx:25-48 | The call is `ListRequest` for the current mode. The new state is `Fetch` of the old state. Loading is false at the end, and consistency is preserved. |
| `ListTasks.TaskTable.ShowAllEffect` | src/components/ListTasks.tsx:50-52 | On opening and after each mode change, the current page is fetched with the current page size. |
| `ListTasks.TaskTable.HandleTableChange` | src/components/ListTasks.tsx:54-58 | A fetch happens iff the table is not in show-all mode. In show-all mode the state is unchanged. |
| `ListTasks.TaskTable.HandlePageSizeChange` | src/components/ListTasks.tsx:60-70 | Show-all: the state becomes `ChoosePageSize`, with no call of its own. A number n: the state is `Fetch` of page 1 with size n, after `ChoosePageSize`, and the call is `listTasks(n, 0)`. `effectDue` says whether the mode changed. |

## Left out

- HTTP, axios and its 600 000 ms timeout (src/api/api.ts), because each backend operation is abstract: the model records the `Call` and takes a `Response` as input.
- lodash `debounce` timing: the 300 ms wall-clock timer is not modelled. The model keeps the single pending slot, and the caller decides when the timer fires (`DebouncedSearch.Fire`).
- Asynchrony inside one handler. `FindDuplicates.Finder.HandleSearch`, `ListTasks.TaskTable.FetchTasks` and `AddTask.Form.OnFinish` each take their backend response as an input and run to completion, so `loading` is only observed false afterwards. Suggestion lookups are split into issue and response, so their responses can interleave freely.
- React stale closures, because state updates are modelled as applied one after another.
- ListTasks.TaskTable.HandlePageSizeChange: does not model the stale closure of a numeric choice. In the source, the direct `fetchTasks(1, n)` runs in the closure of the render that handled the choice, where the `setPagination` of src/components/ListTasks.tsx:67 has not taken effect. So after every numeric choice, a successful response spreads the previous `pagination` back (lines 33-37): the page size returns to its previous value, with page 1 current. Going from 10 to 20 per page ends with page size 10 in the source. The model ends with page size n. From show-all mode, that direct fetch also still sees `showAll` true, so it asks for 1000 rows at offset 0, and it races with the fetch of the show-all effect (lines 50-52).
- FindDuplicates.Finder.HandleSearch: does not model the slider moving while a scan is running, because the method runs to completion. In the source, the load-time effect for the new threshold (src/components/FindDuplicates.tsx:39-48) can display a fresh entry in that window. The finished scan then replaces it with pairs for the old threshold, and stores them for the old threshold (lines 71-75).
- FindDuplicates.Finder.HandleSearch: does not model a failing `localStorage.setItem` (for example, storage quota exceeded). In the source it runs after `setDuplicates` (src/components/FindDuplicates.tsx:71-76), so the display shows the new pairs, the store keeps its old entry, and the error toast appears. The model's successful path always writes the store.
- `JSON.parse` and `localStorage` serialisation: the store is an `Option<CachedData>` assumed well formed, and a malformed entry is not modelled. In the source, a malformed entry makes a search with the cache switch on fail before the scan: the parse at src/components/FindDuplicates.tsx:54-55 throws and the catch at lines 78-81 shows the error. With the switch off, the entry is not parsed and the scan is called as usual. The load-time effect parses the entry outside any try/catch (line 42), so it throws on opening and on every threshold change.
- Form validation (`required` rules), because `AddTask.Form.OnFinish` models the callback that runs only after validation succeeds.
- Query length is counted in Dafny characters. JavaScript counts UTF-16 code units.
- `x || default` treats every falsy value as missing. The model only expresses a missing field (`None`), and a present 0 or "" gives the same result. NaN is not modelled.
- Similarity and threshold are opaque `real`s, compared only for equality. Floating point, the percentage formatting and the table sorters are left out.
- Rendering, toasts and logging, and the stateless views (health check, collection stats, get task, the three search screens, navigation and bootstrapping), because they hold no state logic.
- Races between browser tabs on the shared cache entry, which are concurrency.
