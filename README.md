# Offline-tolerant task list, modelled in Dafny

This project models the data layer of a small Next.js to-do client. The layer has four parts:

- **Loading.** `fetchCachedTodos` is a read-through loader. Online, it fetches the task list from the remote service. It then writes the list under `all-todos` and a timestamp under `todos-timestamp` in a persistent key/value store. Offline, or when the fetch fails, it falls back to the stored list. It fails only when no list is stored. The store (`TodoStorage`) never throws outward: it reads as empty without storage, for a missing key or for unparsable text, and it swallows failed writes.
- **Cache patches.** The in-memory `['todos']` query holds the task list the UI shows. Each mutation patches it only after the service confirms the write:
  - create appends the returned task;
  - edit replaces the text of the tasks whose id the service returned;
  - delete removes the tasks with the deleted id.
  Create checks that the trimmed text is not blank before any request is sent. So does edit's Update button. Edit's Enter key tests the text from the render that registered its key listener, while the request carries the current text (see "## Findings").
- **List view.** The view filters by a case-insensitive substring search and a status filter (all, completed, pending). It shows fixed pages of ten, with a page count, a "Page n of m" label and Previous/Next buttons.
- **Greeting.** The heading classifies the local hour as morning, afternoon or evening.

Modules, one per source file, plus three shared helpers:

| module | source |
|---|---|
| `Types` | `src/types/todo.ts`; the reply/error shapes; the error-message rule shared by create and edit |
| `Text` | JavaScript's `trim`, ASCII `toLowerCase` and `includes` |
| `Sequences` | `Array.prototype.filter` and order preservation (subsequence) |
| `FetchTodos` | `src/utils/fetchTodos.tsx` |
| `QueryCache` | the `['todos']` query and `setQueryData` |
| `TodoList` | `src/components/todoList.tsx` |
| `TodoModal` | `src/components/todoModal.tsx` |
| `EditTodo` | `src/components/editTodo.tsx` |
| `Greeting` | `src/components/greeting.tsx` |

How the effects outside the program are modelled:

- **Remote calls.** Each call is a parameter of type `Reply<T>`: either `NetworkError(reason)` (fetch rejected) or `Response(ok, body)`, where the body is `None` when it is not valid JSON.
- **Persistent store.** `localStorage` is a map field of the class `TodoStorage`. A key maps to `None` when its text does not parse. Whether a write fits the quota is a boolean parameter.
- **Clock and connectivity.** `Date.now()` is an integer parameter. `navigator` is an `Option<bool>`, where `None` means there is no `navigator`.
- **In-flight state.** A mutation's `isPending` flag is a boolean parameter.

The stateful parts are classes whose methods are proved against pure specification functions:

- `TodoStorage` (the store);
- `TodosQuery` (the query data);
- `AddTodoModal` (`isOpen` and the form field);
- `EditTodoModal` (the edited text, the text its key listener captured, and whether `onClose` was called);
- `Pager` (the current page).

`FetchCachedTodos` runs the source's try/catch step by step. Its contract equates its result and the new store with the function `Load`, and the properties of loading are proved about `Load`.

Facts about the code that the model keeps:

- The store keys are `all-todos` and `todos-timestamp` (src/utils/fetchTodos.tsx:55-56).
- When nothing is stored, the loader rethrows the error it caught. Offline, that is "No offline data available". Online, it is the fetch's own error, such as "Failed to fetch".
- The create body carries `userId: 1` and the text as typed, untrimmed.
- The edit patch uses the id and text in the service's reply (`data.id`, `data.todo`), not the modal's task id or the typed text.

## Model

| member | source | states |
|---|---|---|
| `Types.MessageOr` | src/components/todoModal.tsx:48 | `message` or else the fallback: a present, non-empty server message is used; an absent or empty one gives the fallback; the result is never empty when the fallback is not |
| `Types.MutationOutcome` | src/components/todoModal.tsx:34-50 | a create/update succeeds exactly on an ok response with a parsable body, returning that body; the body is parsed before the status is checked, so an unparsable body fails as such even on a non-ok status; a non-ok status with a body fails with the server message or the fallback; a network error propagates |
| `Text.TrimStart` | src/components/todoModal.tsx:60 | the result is a suffix of the input that does not start with JavaScript whitespace, and everything cut off is whitespace |
| `Text.TrimEnd` | src/components/todoModal.tsx:60 | the result is a prefix of the input that does not end with JavaScript whitespace, and everything cut off is whitespace |
| `Text.Trim` | src/components/todoModal.tsx:60 | `trim()` never lengthens its input and leaves no whitespace at either end; also the trim in src/components/editTodo.tsx:36 |
| `Text.TrimSpec` | src/components/todoModal.tsx:60 | `trim()` is the run of the input left once its leading and its trailing whitespace are cut off: everything before and after that run is whitespace |
| `Text.TrimEmptyIffBlank` | src/components/editTodo.tsx:36 | `s.trim()` is empty (falsy) exactly when every character of `s` is whitespace |
| `Text.LowerChar` | src/components/todoList.tsx:52 | each ASCII capital maps to its own lower-case letter, 32 code points on; every other character is unchanged |
| `Text.Lower` | src/components/todoList.tsx:52 | lower-casing keeps the length and maps each character by `LowerChar` |
| `Text.Includes` | src/components/todoList.tsx:52 | an empty search is contained in every text, and a text never contains a search longer than itself |
| `Text.IncludesIffOccurs` | src/components/todoList.tsx:52 | `includes` holds exactly when the search occurs at some index of the text |
| `Sequences.FilterSpec` | src/components/todoList.tsx:50-56 | `filter` keeps exactly the elements passing the test, each as often as in the input, in their original relative order |
| `Sequences.FilterKeepsAll` | src/components/todoList.tsx:50-56 | filtering with a test every element passes returns the input unchanged |
| `FetchTodos.Lookup` | src/utils/fetchTodos.tsx:13-23 | `getItem` yields a value exactly when storage exists and the key holds parsable text, and then that value; otherwise null, never an error |
| `FetchTodos.Store` | src/utils/fetchTodos.tsx:25-33 | `setItem` without storage, or with a write that throws, leaves the store unchanged; otherwise the key now reads back the value and every other key is unchanged |
| `FetchTodos.CachedList` | src/utils/fetchTodos.tsx:49-50 | `if (cached)`: any stored list, even an empty one, is a hit; anything else is a miss |
| `FetchTodos.FetchMyTodos` | src/utils/fetchTodos.tsx:36-41 | the fetch succeeds exactly on an ok status with a parsable body; a non-ok status throws "Failed to fetch" before the body is read; a body without `todos` gives the empty list |
| `FetchTodos.IsOnline` | src/utils/fetchTodos.tsx:45 | the online flag is `navigator.onLine`, and true when there is no `navigator` |
| `FetchTodos.Load` | src/utils/fetchTodos.tsx:43-64 | online with a successful fetch: the fetched list, then stored under `all-todos` with the timestamp under `todos-timestamp`; offline: the stored list or "No offline data available"; online with a failed fetch: the stored list or the fetch's own error; only the successful path writes, and it writes no other key; a load fails only when no list is stored |
| `FetchTodos.OfflineIgnoresRemote` | src/utils/fetchTodos.tsx:47-52 | offline, the outcome does not depend on the remote reply, the clock or the write outcomes: the remote is never consulted |
| `FetchTodos.SnapshotServesLaterLoads` | src/utils/fetchTodos.tsx:54-62 | after an online load that fetched a list into working storage, any later offline or failing load returns that same list |
| `FetchTodos.TodoStorage.constructor` | src/utils/fetchTodos.tsx:10-11 | a store with a fixed availability flag and given contents |
| `FetchTodos.TodoStorage.GetItem` | src/utils/fetchTodos.tsx:13-23 | returns exactly `Lookup` of the current contents and changes nothing |
| `FetchTodos.TodoStorage.SetItem` | src/utils/fetchTodos.tsx:25-33 | the new contents are `Store` of the old ones |
| `FetchTodos.FetchCachedTodos` | src/utils/fetchTodos.tsx:43-64 | the try/catch run step by step; its result and the new store are exactly `Load` of the old store and the inputs |
| `FetchTodos.OnlineThenOffline` | src/utils/fetchTodos.tsx:47-57 | an online load that fetches a list, then an offline load, on one working store: both return that list |
| `QueryCache.TodosQuery.SetQueryData` | src/components/todoList.tsx:36-38 | the updater receives the current data, or nothing before a load, and its result becomes the data |
| `TodoList.LoadTodos` | src/components/todoList.tsx:22-25 | a successful load replaces the query data wholesale; a failed one leaves it as it was; the result and store are as `Load` says |
| `TodoList.RemoveById` | src/components/todoList.tsx:36-38 | after the delete patch no task has the id; every other task remains as often as before and in the same relative order; a missing list becomes [] |
| `TodoList.RemoveAbsentId` | src/components/todoList.tsx:36-38 | deleting an id no task carries leaves the list unchanged |
| `TodoList.RemoveByIdIdempotent` | src/components/todoList.tsx:36-38 | applying the delete patch twice equals applying it once |
| `TodoList.DeleteTodo` | src/components/todoList.tsx:27-40 | a non-ok status throws "Failed to delete" and a network error propagates, both leaving the list untouched; success returns the id and applies `RemoveById` |
| `TodoList.FilterTodos` | src/components/todoList.tsx:50-56 | every item shown matches the search and the status filter, and every matching item is shown as often as it occurs in the data |
| `TodoList.FilterTodosSpec` | src/components/todoList.tsx:50-56 | the filtered list is an order-preserving selection of the data; each item's lower-cased text contains the lower-cased search; under "completed" every item is completed and under "pending" none is; every matching item is kept as often as in the data |
| `TodoList.FilterTodosUnfiltered` | src/components/todoList.tsx:50-56 | an empty search under "all" shows the data unchanged |
| `TodoList.SliceIndex` | src/components/todoList.tsx:61 | a `slice` index becomes a position within the list, unchanged when already inside it |
| `TodoList.JsSlice` | src/components/todoList.tsx:61 | `slice(start, end)` is the run of items beginning at the clamped start, within the list, whose length is the clamped end minus the clamped start, or 0 when that is not positive; for indices inside the list it is exactly `s[start..end]` |
| `TodoList.Skip` | src/components/todoList.tsx:20 | pages start ten items apart: the skip is a multiple of ten, non-negative exactly from page 1 on, and page p starts at item (p−1)·10 |
| `TodoList.Paginate` | src/components/todoList.tsx:59-61 | a page holds at most ten items; from page one on, it is the items from index (currentPage−1)·10, ten when ten are left, otherwise the rest, and none past the end |
| `TodoList.TotalPages` | src/components/todoList.tsx:58 | `Math.ceil(n / 10)`: the fewest pages of ten that hold n items |
| `TodoList.PagesFromSuffix` | src/components/todoList.tsx:58-61 | the pages from page p to the last, laid end to end, are the filtered list from index (p−1)·10 on |
| `TodoList.PagesReassemble` | src/components/todoList.tsx:58-61 | pages 1 to `totalPages`, laid end to end, reproduce the filtered list |
| `TodoList.PageLabelTotal` | src/components/todoList.tsx:123 | the label's page count (`totalPages`, or 1 when it is 0) is at least 1 and equals `totalPages` when there are pages |
| `TodoList.PrevDisabled` | src/components/todoList.tsx:115 | from page 1 on, Previous is enabled exactly when a page before the current one exists |
| `TodoList.NextDisabled` | src/components/todoList.tsx:127 | the rule as written: with no pages Next is disabled; from page 1 to the last it is disabled exactly on the last; past the last page it is enabled |
| `TodoList.NavigationWithinPages` | src/components/todoList.tsx:115-127 | on any page from 1 to `totalPages`: the page shows something; Previous is enabled exactly past page 1; Next is enabled exactly before the last page and then leads to a page that shows something |
| `TodoList.NextEnabledPastLastPage` | src/components/todoList.tsx:127 | on a page past the last one, the page shows nothing and the rule as written still enables Next |
| `TodoList.NextIntendedLeadsToItems` | src/components/todoList.tsx:127 | under the corrected rule Next only leads to a page that shows something, and on pages 1 to `totalPages` it agrees with the rule as written |
| `TodoList.Pager.constructor` | src/app/page.tsx:15 | the list starts on page 1 |
| `TodoList.Pager.ClickPrevious` | src/components/todoList.tsx:115-116 | Previous moves back one page unless it is disabled (on page 1) |
| `TodoList.Pager.ClickNext` | src/components/todoList.tsx:127-128 | Next moves forward one page unless it is disabled by the rule as written |
| `TodoModal.Validate` | src/components/todoModal.tsx:104-111 | the field passes exactly when its trimmed text is not empty; empty text reports "Todo is required" and whitespace-only text "Todo cannot be empty" |
| `TodoModal.BlankNeverValid` | src/components/todoModal.tsx:110 | the field passes exactly when some character is not whitespace |
| `TodoModal.EnterSubmits` | src/components/todoModal.tsx:73 | Enter submits exactly when no create is in flight and some character of the field is not whitespace |
| `TodoModal.CreateBody` | src/components/todoModal.tsx:38-42 | the create body carries the text as typed, `completed: false` and `userId: 1` |
| `TodoModal.AppendTodo` | src/components/todoModal.tsx:53 | the append patch keeps all prior tasks unchanged and in order, grows the list by exactly one, and puts the returned task last; a missing list becomes [data] |
| `TodoModal.AppendAddsOneWithId` | src/components/todoModal.tsx:53 | the append does not deduplicate: the returned id occurs exactly once more than before |
| `TodoModal.DeleteUndoesAppend` | src/components/todoModal.tsx:53 | deleting a newly created task's id restores the list as it was before the create |
| `TodoModal.AddTodoModal.constructor` | src/components/todoModal.tsx:15-29 | the modal starts closed with an empty field |
| `TodoModal.AddTodoModal.Open` | src/components/todoModal.tsx:86 | "Add Todo" opens the modal and keeps the field |
| `TodoModal.AddTodoModal.Input` | src/components/todoModal.tsx:104 | typing sets the field and keeps the modal as it is |
| `TodoModal.AddTodoModal.Cancel` | src/components/todoModal.tsx:123-126 | Cancel resets the field and closes |
| `TodoModal.AddTodoModal.Submit` | src/components/todoModal.tsx:52-63 | blank text sends nothing; otherwise the create body is sent with the typed text; on success the returned task is appended, the field reset and the modal closed; on failure the list, field and modal are unchanged |
| `TodoModal.AddTodoModal.Created` | src/components/todoModal.tsx:52-56 | on a confirmed create the list becomes the append patch of what it was, the form is reset and the modal closed |
| `TodoModal.AddTodoModal.ClickAdd` | src/components/todoModal.tsx:131-133 | the Add button sends exactly when the field is valid and no create is pending, and then sends `CreateBody` of the typed text (untrimmed, not completed, user 1) with the outcome and list update of `Submit`; otherwise nothing changes |
| `TodoModal.AddTodoModal.KeyDown` | src/components/todoModal.tsx:65-81 | only while open: Escape closes and resets; Enter sends exactly when the trimmed text is non-empty and no create is pending, and then sends `CreateBody` of the typed text with the outcome and list update of `Submit`; every other key changes nothing |
| `EditTodo.ReplaceText` | src/components/editTodo.tsx:24-26 | the edit patch keeps length and order and every task's `id`, `completed` and `userId`; only tasks carrying the returned id get the returned text, and all other tasks are identical; a missing list becomes [] |
| `EditTodo.ReplaceAbsentId` | src/components/editTodo.tsx:25 | a reply for an id no task carries leaves the list unchanged |
| `EditTodo.ReplaceTextIdempotent` | src/components/editTodo.tsx:25 | applying the same edit patch twice equals applying it once |
| `EditTodo.RemoveAfterReplace` | src/components/editTodo.tsx:24-26 | deleting an id after editing it gives the same list as deleting it directly: the edit touches nothing else |
| `EditTodo.EnterSendsBlankText` | src/components/editTodo.tsx:36-49 | as written, a listener that captured "buy milk" sends "   " on Enter, and one that captured "   " sends nothing although "buy milk" is typed |
| `EditTodo.EnterIntendedNeverSendsBlank` | src/components/editTodo.tsx:36-44 | with the guard on the current text, Enter sends exactly when nothing is in flight and the text is not all whitespace, and sends that text; it agrees with the listener as written whenever the listener captured the current text |
| `EditTodo.EditTodoModal.constructor` | src/components/editTodo.tsx:9 | the edited text and the text the first key listener captures both start as the task's text |
| `EditTodo.EditTodoModal.Input` | src/components/editTodo.tsx:31-33 | while the modal is mounted, typing sets the edited text and leaves the registered key listener as it was |
| `EditTodo.EditTodoModal.Reregister` | src/components/editTodo.tsx:41-49 | when the effect re-runs (`onClose` or `mutation.isPending` changed), the new listener captures the current text |
| `EditTodo.EditTodoModal.Close` | src/components/editTodo.tsx:43 | closing calls `onClose` and keeps the text |
| `EditTodo.EditTodoModal.Mutate` | src/components/editTodo.tsx:12-28 | the update is sent for this task's id with the current text; success patches the list with the returned id and text and closes; failure leaves the list and modal unchanged; the listener is registered again on the current text |
| `EditTodo.EditTodoModal.HandleUpdate` | src/components/editTodo.tsx:35-39 | whitespace-only text sends nothing and changes nothing; otherwise it acts as `Mutate` on the current text |
| `EditTodo.EditTodoModal.ClickUpdate` | src/components/editTodo.tsx:87-90 | the Update button sends nothing and changes nothing (list, modal, listener) while an update is in flight; otherwise it acts as `HandleUpdate` |
| `EditTodo.EditTodoModal.KeyDown` | src/components/editTodo.tsx:41-49 | while the modal is mounted: Escape closes and leaves the list; Enter sends exactly `EnterRequest`: nothing while an update is in flight or when the captured text is blank, and otherwise the current text, even when it is blank; other keys send nothing and change nothing |
| `Greeting.GreetingFor` | src/components/greeting.tsx:9-12 | before 12 "Good Morning", from 12 to before 17 "Good Afternoon", from 17 on "Good Evening" |
| `Greeting.GreetingPartition` | src/components/greeting.tsx:10-12 | each hour 0–23 gets exactly one of the three greetings, chosen by its band: both directions of each case |
| `Greeting.GreetingMonotone` | src/components/greeting.tsx:10-12 | a later hour never gives an earlier part of the day |
| `Greeting.Heading` | src/components/greeting.tsx:16-18 | before a greeting is set (null or empty) the heading reads "You're Back!"; afterwards it is the greeting; it is never empty |

## Left out

- Network I/O is not modelled. Each `fetch`, including the `PUT` that `src/app/api/todos/[id]/route.ts` forwards, is a `Reply` value given as a parameter. The `POST /todos/add` and list endpoints are the remote service's.
- `localStorage` and JSON serialisation are replaced by a map holding typed values, and a value that does not parse is `None`. Under `all-todos`, a stored value that is not a list counts as a miss. This code only ever writes lists there, but JavaScript would return any truthy value. A list body of JSON `null`, where `data.todos` would throw, is not modelled.
- `Date.now()` and `navigator.onLine` are parameters. `console` logging is left out.
- React Query internals are left out:
  - a failed query's automatic retries;
  - re-render timing;
  - the loading and error screens (src/components/todoList.tsx:46-48);
  - the page reset effect (src/components/todoList.tsx:42-44).
  A load and each mutation run as one step, and `isPending` is a parameter. When the edit modal's key listener is registered again is left to the caller, who calls `EditTodoModal.Reregister` at that point.
- Concurrent mutations are not modelled. Each mutation is applied whole, in the order the model calls them.
- `toLowerCase` is modelled for ASCII letters only. Other characters are left as they are.
- `window.confirm` before a delete (src/components/todoList.tsx:63-66) is left out. `DeleteTodo` is the mutation that runs after the user confirms.
- Selecting a task for editing (src/components/todoList.tsx:68-74) is reduced to the edit modal's `closed` flag, which stands for `onClose`.
- TodoModal.AppendTodo: stores the returned task without its `message` field. The source appends the whole response object. No code reads `message` from the list.
- TodoModal.Validate: the `minLength: 1` rule is kept as a branch, but it can never fire, because `required` already rejects the empty text.
- `src/components/todoDetail.tsx`, `errorBoundary.tsx`, `notFoundPage.tsx` and `searchFilter.tsx` are left out as presentational. So are the authentication and layout files under `src/app`. `src/app/page.tsx` is modelled only for the initial page number.
- Greeting: `new Date().getHours()` is the `hour` parameter. The component's one state write is modelled by passing its state to `Heading`.

## Findings

| source | as written | input that shows it | evidently intended | confidence | as-written member | corrected member |
|---|---|---|---|---|---|---|
| src/components/todoList.tsx:127 | Next is disabled only when `currentPage === totalPages` or `totalPages === 0` | Start with 21 matching tasks and open page 3, which holds one task. Delete that task. The list now has 20 tasks, so `totalPages` is 2, but the page stays at 3 because the reset effect runs only on search or filter changes. Page 3 is empty, the label reads "Page 3 of 2", and Next is enabled. | Next disabled from the last page on (`currentPage >= totalPages`) | medium; not executed | `TodoList.NextEnabledPastLastPage` | `TodoList.NextIntendedLeadsToItems` (rule `TodoList.NextDisabledIntended`) |

| src/components/editTodo.tsx:41-49 | The key listener's effect depends only on `onClose` and `mutation.isPending`, so Enter runs the `handleUpdate` of the render that registered it. Its blank-text guard tests the text from that render, while the request body carries the current text. | Open the edit modal on "buy milk", clear the field to three spaces and press Enter. No update is in flight and the captured text "buy milk" is not blank, so `PUT {"todo":"   "}` is sent, and on success the task's text becomes blank. | Enter tests the same text it sends, as the Update button does (`editedTodo` among the effect's dependencies) | medium; not executed | `EditTodo.EnterSendsBlankText` (rule `EditTodo.EnterRequest`) | `EditTodo.EnterIntendedNeverSendsBlank` (rule `EditTodo.EnterRequestIntended`) |

`Pager.ClickNext` keeps the rule as written, so the model of the buttons matches the code. The corrected rule and its proof are stated beside it. Likewise `EditTodoModal.KeyDown` sends `EnterRequest`, the listener as written, and `EnterRequestIntended` with its proof is the corrected rule.
