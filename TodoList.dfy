/** The task list view: the load that fills the `['todos']` query, the delete
    mutation and its patch, the search and status filter, and the fixed-size
    pagination with its previous/next controls. */
module TodoList {
  import opened Types
  import opened Text
  import opened Sequences
  import opened FetchTodos
  import opened QueryCache

  const DeleteFailedMessage := "Failed to delete"

  // ---------------------------------------------------------------- loading

  /** The query's `queryFn`: a successful load replaces the list wholesale; a
      failed one leaves the previous data in place and reports the error. */
  method LoadTodos(query: TodosQuery, storage: TodoStorage, navigator: Option<bool>,
                   remote: Reply<ListPayload>, now: int, listFits: bool, stampFits: bool)
    returns (r: Result<seq<Todo>, Error>)
    modifies query, storage
    ensures LoadOutcome(r, storage.items)
         == Load(storage.isClient, old(storage.items), IsOnline(navigator), remote, now, listFits, stampFits)
    ensures r.Success? ==> query.data == Some(r.value)
    ensures r.Failure? ==> query.data == old(query.data)
  {
    r := FetchCachedTodos(storage, navigator, remote, now, listFits, stampFits);
    if r.Success? {
      query.data := Some(r.value);
    }
  }

  // ---------------------------------------------------------------- delete

  /** The test `todo.id !== id`. */
  function HasOtherId(id: int): Todo -> bool {
    (t: Todo) => t.id != id
  }

  /** The delete patch `old ? old.filter(todo => todo.id !== id) : []`: no task
      with `id` remains, every other task remains as often as before, and the
      survivors keep their relative order. */
  function RemoveById(prev: Option<seq<Todo>>, id: int): (r: seq<Todo>)
    ensures prev.None? ==> r == []
    ensures forall t :: t in r ==> t.id != id
    ensures prev.Some? ==> IsSubsequence(r, prev.value)
    ensures prev.Some? ==> forall t: Todo :: t.id != id ==> multiset(r)[t] == multiset(prev.value)[t]
  {
    match prev
    case None => []
    case Some(list) =>
      FilterSpec(list, HasOtherId(id));
      Filter(list, HasOtherId(id))
  }

  /** Deleting an id no task has leaves the list as it was. */
  lemma RemoveAbsentId(list: seq<Todo>, id: int)
    requires forall i :: 0 <= i < |list| ==> list[i].id != id
    ensures RemoveById(Some(list), id) == list
  {
    FilterKeepsAll(list, HasOtherId(id));
  }

  /** Deleting twice is deleting once. */
  lemma RemoveByIdIdempotent(prev: Option<seq<Todo>>, id: int)
    ensures RemoveById(Some(RemoveById(prev, id)), id) == RemoveById(prev, id)
  {
    var once := RemoveById(prev, id);
    assert forall i :: 0 <= i < |once| ==> once[i] in once;
    RemoveAbsentId(once, id);
  }

  /** The delete mutation: a `DELETE` whose body is never read; a non-ok
      status throws "Failed to delete" and leaves the list alone, success
      patches it. */
  method DeleteTodo(query: TodosQuery, id: int, reply: Reply<()>) returns (r: Result<int, Error>)
    modifies query
    ensures reply.NetworkError? ==> r == Failure(NetworkFailure(reply.reason))
    ensures reply.Response? && !reply.ok ==> r == Failure(Thrown(DeleteFailedMessage))
    ensures reply.Response? && reply.ok ==> r == Success(id)
    ensures r.Failure? ==> query.data == old(query.data)
    ensures r.Success? ==> query.data == Some(RemoveById(old(query.data), id))
  {
    match reply
    case NetworkError(reason) =>
      return Failure(NetworkFailure(reason));
    case Response(ok, _) =>
      if !ok {
        return Failure(Thrown(DeleteFailedMessage));
      }
      query.SetQueryData(prev => RemoveById(prev, id));
      return Success(id);
  }

  // ---------------------------------------------------------------- filter

  function StatusMatches(filter: TodoStatusFilter, completed: bool): bool {
    filter == All || (filter == Completed && completed) || (filter == Pending && !completed)
  }

  /** The list filter's test: the lower-cased text contains the lower-cased
      search, and the status matches. */
  function Matches(search: string, filter: TodoStatusFilter): Todo -> bool {
    (t: Todo) => Includes(Lower(t.todo), Lower(search)) && StatusMatches(filter, t.completed)
  }

  /** The list as filtered for display: only matching items, each matching
      item as often as in the data. */
  function FilterTodos(data: seq<Todo>, search: string, filter: TodoStatusFilter): (r: seq<Todo>)
    ensures forall t :: t in r ==> Matches(search, filter)(t)
    ensures forall t :: multiset(r)[t] == if Matches(search, filter)(t) then multiset(data)[t] else 0
  {
    FilterSpec(data, Matches(search, filter));
    Filter(data, Matches(search, filter))
  }

  /** What the filtered list holds: an order-preserving selection of the data
      whose every item contains the search (ignoring case) and has the chosen
      status, and which keeps every matching item. */
  lemma FilterTodosSpec(data: seq<Todo>, search: string, filter: TodoStatusFilter)
    ensures IsSubsequence(FilterTodos(data, search, filter), data)
    ensures forall t :: t in FilterTodos(data, search, filter) ==>
              (exists i :: OccursAt(Lower(t.todo), Lower(search), i))
    ensures forall t :: t in FilterTodos(data, search, filter) && filter == Completed ==> t.completed
    ensures forall t :: t in FilterTodos(data, search, filter) && filter == Pending ==> !t.completed
    ensures forall t :: Matches(search, filter)(t) ==>
              multiset(FilterTodos(data, search, filter))[t] == multiset(data)[t]
  {
    FilterSpec(data, Matches(search, filter));
    forall t | t in FilterTodos(data, search, filter)
      ensures exists i :: OccursAt(Lower(t.todo), Lower(search), i)
    {
      IncludesIffOccurs(Lower(t.todo), Lower(search));
    }
  }

  /** With an empty search and the "all" filter the list is shown unfiltered. */
  lemma FilterTodosUnfiltered(data: seq<Todo>)
    ensures FilterTodos(data, "", All) == data
  {
    forall i | 0 <= i < |data| ensures Matches("", All)(data[i]) {
      IncludesEmpty(Lower(data[i].todo));
    }
    FilterKeepsAll(data, Matches("", All));
  }

  // ---------------------------------------------------------------- pages

  /** How `Array.prototype.slice` turns an index into a position: negative
      indices count from the end, and both are clamped to the length. */
  function SliceIndex(i: int, n: nat): (k: nat)
    ensures k <= n
    ensures 0 <= i <= n ==> k == i
  {
    if i < 0 then (if n + i < 0 then 0 else n + i) else if i > n then n else i
  }

  /** `s.slice(start, end)`. */
  function JsSlice<T>(s: seq<T>, start: int, end: int): (r: seq<T>)
    ensures SliceIndex(start, |s|) + |r| <= |s|
    ensures |r| == if SliceIndex(start, |s|) < SliceIndex(end, |s|) then SliceIndex(end, |s|) - SliceIndex(start, |s|) else 0
    ensures 0 <= start <= end <= |s| ==> r == s[start..end]
    ensures 0 <= end <= start ==> r == []
    ensures forall i :: 0 <= i < |r| ==> r[i] == s[SliceIndex(start, |s|) + i]
  {
    var from, to := SliceIndex(start, |s|), SliceIndex(end, |s|);
    if from < to then s[from..to] else []
  }

  /** The index of the first item of a page: pages hold `limit` = 10 items
      and start ten items apart. The page size is written as the literal 10
      throughout, which keeps the arithmetic about it linear. */
  function Skip(currentPage: int): (r: int)
    ensures r >= 0 <==> currentPage >= 1
    ensures r % 10 == 0
    ensures currentPage >= 1 ==> r / 10 == currentPage - 1
  {
    (currentPage - 1) * 10
  }

  /** `filteredTodos.slice(skip, skip + limit)`: at most ten items; from page
      one on, the items starting at index `(currentPage - 1) * 10`, and a full
      page whenever ten are left. */
  function Paginate(filtered: seq<Todo>, currentPage: int): (r: seq<Todo>)
    ensures |r| <= 10
    ensures currentPage >= 1 ==>
              forall i :: 0 <= i < |r| ==> Skip(currentPage) + i < |filtered| && r[i] == filtered[Skip(currentPage) + i]
    ensures currentPage >= 1 ==>
              |r| == if Skip(currentPage) >= |filtered| then 0
                     else if |filtered| - Skip(currentPage) < 10 then |filtered| - Skip(currentPage)
                     else 10
  {
    JsSlice(filtered, Skip(currentPage), Skip(currentPage) + 10)
  }

  /** `Math.ceil(count / limit)`: the fewest pages of ten that hold `count` items. */
  function TotalPages(count: nat): (r: nat)
    ensures r * 10 >= count
    ensures r == 0 || (r - 1) * 10 < count
  {
    (count + 10 - 1) / 10
  }

  /** Pages `page`, `page + 1`, ..., `count` of them, one after the other. */
  function PagesFrom(filtered: seq<Todo>, page: int, count: nat): seq<Todo>
    decreases count
  {
    if count == 0 then [] else Paginate(filtered, page) + PagesFrom(filtered, page + 1, count - 1)
  }

  /** Taking one full page off leaves one page fewer. */
  lemma TotalPagesStep(m: nat)
    requires m > 10
    ensures TotalPages(m - 10) == TotalPages(m) - 1
  {
    assert m + 10 - 1 == (m - 10 + 10 - 1) + 10;
  }

  /** Between one and ten items fill exactly one page. */
  lemma TotalPagesOne(m: nat)
    requires 0 < m <= 10
    ensures TotalPages(m) == 1
  {
  }

  /** Each page starts ten items after the one before it. */
  lemma SkipNext(page: int)
    ensures Skip(page + 1) == Skip(page) + 10
  {
  }

  /** A page that starts inside the list is a plain slice of it: ten items,
      or the rest when fewer are left. */
  lemma PaginateSlice(filtered: seq<Todo>, page: int)
    requires page >= 1 && Skip(page) <= |filtered|
    ensures |filtered| - Skip(page) <= 10 ==> Paginate(filtered, page) == filtered[Skip(page)..]
    ensures |filtered| - Skip(page) > 10 ==>
              Paginate(filtered, page) == filtered[Skip(page)..Skip(page) + 10]
  {
  }

  /** The pages from `page` to the last, laid end to end, are the filtered
      list from the first item of `page` on. */
  lemma {:induction false} PagesFromSuffix(filtered: seq<Todo>, page: int, count: nat)
    requires page >= 1 && Skip(page) <= |filtered|
    requires count == TotalPages(|filtered| - Skip(page))
    ensures PagesFrom(filtered, page, count) == filtered[Skip(page)..]
    decreases count
  {
    var n, skip := |filtered|, Skip(page);
    if count == 0 {
      assert n - skip == 0;
    } else {
      var rest := PagesFrom(filtered, page + 1, count - 1);
      assert PagesFrom(filtered, page, count) == Paginate(filtered, page) + rest;
      PaginateSlice(filtered, page);
      if n - skip <= 10 {
        TotalPagesOne(n - skip);
        assert rest == [];
      } else {
        SkipNext(page);
        TotalPagesStep(n - skip);
        PagesFromSuffix(filtered, page + 1, count - 1);
        assert filtered[skip..] == filtered[skip..skip + 10] + filtered[skip + 10..];
      }
    }
  }

  /** Pages one to `totalPages`, laid end to end, give back the filtered list. */
  lemma PagesReassemble(filtered: seq<Todo>)
    ensures PagesFrom(filtered, 1, TotalPages(|filtered|)) == filtered
  {
    PagesFromSuffix(filtered, 1, TotalPages(|filtered|));
  }

  /** The label "Page n of `totalPages || 1`". */
  function PageLabelTotal(totalPages: nat): (r: nat)
    ensures r >= 1
    ensures totalPages > 0 ==> r == totalPages
  {
    if totalPages == 0 then 1 else totalPages
  }

  /** `currentPage === 1`: Previous is enabled exactly when a page before
      the current one exists. */
  predicate PrevDisabled(currentPage: int): (r: bool)
    ensures currentPage >= 1 ==> (!r <==> currentPage - 1 >= 1)
  {
    currentPage == 1
  }

  /** As written: `currentPage === totalPages || totalPages === 0`. From the
      first to the last page Next is disabled exactly on the last; past the
      last page it is enabled again. */
  predicate NextDisabled(currentPage: int, totalPages: nat): (r: bool)
    ensures 1 <= currentPage <= totalPages ==> (r <==> currentPage + 1 > totalPages)
    ensures totalPages > 0 && currentPage > totalPages ==> !r
    ensures totalPages == 0 ==> r
  {
    currentPage == totalPages || totalPages == 0
  }

  /** On any page from the first to the last: every page shows something,
      Previous is enabled exactly past page one, and Next exactly before the
      last page, where it leads to a page that shows something. */
  lemma NavigationWithinPages(filtered: seq<Todo>, currentPage: int)
    requires 1 <= currentPage <= TotalPages(|filtered|)
    ensures Paginate(filtered, currentPage) != []
    ensures !PrevDisabled(currentPage) <==> currentPage > 1
    ensures !NextDisabled(currentPage, TotalPages(|filtered|)) <==> currentPage < TotalPages(|filtered|)
    ensures !NextDisabled(currentPage, TotalPages(|filtered|)) ==> Paginate(filtered, currentPage + 1) != []
  {
    var total := TotalPages(|filtered|);
    assert Skip(currentPage) < |filtered| by {
      assert Skip(currentPage) <= (total - 1) * 10;
    }
    if currentPage < total {
      assert Skip(currentPage + 1) < |filtered| by {
        assert Skip(currentPage + 1) <= (total - 1) * 10;
      }
    }
  }

  /** The rule as written leaves Next enabled on a page past the last one,
      which shows nothing: with 20 matching tasks on page 3 (reached by deleting
      the only task of page 3 out of 21), "Page 3 of 2" offers Next. */
  lemma NextEnabledPastLastPage(filtered: seq<Todo>, currentPage: int)
    requires 1 <= TotalPages(|filtered|) < currentPage
    ensures Paginate(filtered, currentPage) == []
    ensures !NextDisabled(currentPage, TotalPages(|filtered|))
  {
    assert Skip(currentPage) >= TotalPages(|filtered|) * 10;
  }

  /** The evident intent: Next is disabled from the last page on. */
  predicate NextDisabledIntended(currentPage: int, totalPages: nat) {
    currentPage >= totalPages
  }

  /** With the intended rule Next only ever leads to a page that shows
      something, and within the pages it agrees with the rule as written. */
  lemma NextIntendedLeadsToItems(filtered: seq<Todo>, currentPage: int)
    requires currentPage >= 1
    ensures !NextDisabledIntended(currentPage, TotalPages(|filtered|)) ==>
              Paginate(filtered, currentPage + 1) != []
    ensures currentPage <= TotalPages(|filtered|) ==>
              (NextDisabledIntended(currentPage, TotalPages(|filtered|)) <==> NextDisabled(currentPage, TotalPages(|filtered|)))
  {
    if !NextDisabledIntended(currentPage, TotalPages(|filtered|)) {
      NavigationWithinPages(filtered, currentPage);
    }
  }

  /** The current page, owned by the page and moved by the two buttons; a
      click on a disabled button does nothing. */
  class Pager {
    var currentPage: int

    constructor ()
      ensures currentPage == 1
    {
      currentPage := 1;
    }

    method ClickPrevious()
      modifies this
      ensures currentPage == if PrevDisabled(old(currentPage)) then old(currentPage) else old(currentPage) - 1
    {
      if !PrevDisabled(currentPage) {
        currentPage := currentPage - 1;
      }
    }

    method ClickNext(totalPages: nat)
      modifies this
      ensures currentPage == if NextDisabled(old(currentPage), totalPages) then old(currentPage) else old(currentPage) + 1
    {
      if !NextDisabled(currentPage, totalPages) {
        currentPage := currentPage + 1;
      }
    }
  }
}
