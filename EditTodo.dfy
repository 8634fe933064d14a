/** The edit modal: its blank-text guard, the update request, and the
    replace-by-id patch applied once the service confirms. */
module EditTodo {
  import opened Types
  import opened Text
  import opened QueryCache
  import TodoList

  const UpdateFailedMessage := "Failed to update"

  /** The update request: `PUT /api/todos/{id}` with body `{ todo }`. */
  datatype UpdateRequest = UpdateRequest(id: int, todo: string)

  /** `t.id === id ? { ...t, todo: text } : t`. */
  function Retext(t: Todo, id: int, text: string): Todo {
    if t.id == id then t.(todo := text) else t
  }

  /** The edit patch `old ? old.map(t => t.id === data.id ? { ...t, todo: data.todo } : t) : []`:
      the same tasks in the same order, where only the text of tasks carrying
      `id` changes and every other task is identical. */
  function ReplaceText(prev: Option<seq<Todo>>, id: int, text: string): (r: seq<Todo>)
    ensures prev.None? ==> r == []
    ensures prev.Some? ==> |r| == |prev.value|
    ensures prev.Some? ==> forall i :: 0 <= i < |r| ==>
              && r[i].id == prev.value[i].id
              && r[i].completed == prev.value[i].completed
              && r[i].userId == prev.value[i].userId
              && r[i].todo == (if prev.value[i].id == id then text else prev.value[i].todo)
    ensures prev.Some? ==> forall i :: 0 <= i < |r| && prev.value[i].id != id ==> r[i] == prev.value[i]
  {
    match prev
    case None => []
    case Some(list) => seq(|list|, i requires 0 <= i < |list| => Retext(list[i], id, text))
  }

  /** A reply for an id no task carries leaves the list as it was. */
  lemma ReplaceAbsentId(list: seq<Todo>, id: int, text: string)
    requires forall i :: 0 <= i < |list| ==> list[i].id != id
    ensures ReplaceText(Some(list), id, text) == list
  {
  }

  /** Applying the same patch twice is applying it once. */
  lemma ReplaceTextIdempotent(prev: Option<seq<Todo>>, id: int, text: string)
    ensures ReplaceText(Some(ReplaceText(prev, id, text)), id, text) == ReplaceText(prev, id, text)
  {
  }

  /** Deleting an id after editing it gives the same list as deleting it
      straight away: the edit touches nothing but the tasks with that id. */
  lemma {:induction false} RemoveAfterReplace(list: seq<Todo>, id: int, text: string)
    ensures TodoList.RemoveById(Some(ReplaceText(Some(list), id, text)), id) == TodoList.RemoveById(Some(list), id)
    decreases |list|
  {
    if list != [] {
      var edited := ReplaceText(Some(list), id, text);
      assert edited[1..] == ReplaceText(Some(list[1..]), id, text);
      RemoveAfterReplace(list[1..], id, text);
    }
  }

  /** The request Enter sends, as the key listener is written: the listener
      is registered by an effect that re-runs only when `onClose` or
      `mutation.isPending` changes, so the `handleUpdate` it calls tests
      `captured`, the edited text as of that render, while the request body
      comes from the current `mutationFn` and carries `current`. */
  function EnterRequest(id: int, captured: string, current: string, pending: bool): Option<UpdateRequest> {
    if !pending && Trim(captured) != "" then Some(UpdateRequest(id, current)) else None
  }

  /** Enter as evidently intended: `handleUpdate` on the text as typed now. */
  function EnterRequestIntended(id: int, current: string, pending: bool): Option<UpdateRequest> {
    if !pending && Trim(current) != "" then Some(UpdateRequest(id, current)) else None
  }

  /** As written, the blank-text guard does not hold for Enter: open the
      modal on "buy milk", clear the field to spaces and press Enter, and the
      spaces are sent. The other way round, a task whose text was blank
      cannot be saved by Enter even after a real text is typed. */
  lemma EnterSendsBlankText()
    ensures var r := EnterRequest(1, "buy milk", "   ", false);
            r.Some? && r.value.todo == "   " && AllWhitespace(r.value.todo)
    ensures EnterRequest(1, "   ", "buy milk", false).None?
  {
    var task, blank := "buy milk", "   ";
    assert !IsJsWhitespace(task[0]);
    TrimEmptyIffBlank(task);
    assert Trim(task) != "";
    assert AllWhitespace(blank) by {
      forall i | 0 <= i < |blank| ensures IsJsWhitespace(blank[i]) {
        assert blank[i] == ' ';
      }
    }
    TrimEmptyIffBlank(blank);
    assert Trim(blank) == "";
  }

  /** With the intended guard, Enter sends exactly when no update is in
      flight and the text as typed is not blank, and sends that text; it
      agrees with the written listener whenever the listener was registered
      on the current text. */
  lemma EnterIntendedNeverSendsBlank(id: int, captured: string, current: string, pending: bool)
    ensures EnterRequestIntended(id, current, pending).Some? <==> !pending && !AllWhitespace(current)
    ensures EnterRequestIntended(id, current, pending).Some? ==>
              EnterRequestIntended(id, current, pending).value == UpdateRequest(id, current)
    ensures captured == current ==> EnterRequest(id, captured, current, pending) == EnterRequestIntended(id, current, pending)
  {
    TrimEmptyIffBlank(current);
  }

  /** The modal is mounted only while a task is selected: once `onClose`
      has cleared the selection it is gone, with its key listener, so no
      input reaches a closed modal. */
  class EditTodoModal {
    /** The task the modal was opened for. */
    const todo: Todo
    var editedTodo: string
    /** The edited text as the registered key listener's `handleUpdate`
        reads it: the text at the render that last ran the listener effect. */
    var listenerText: string
    /** `onClose` has been called: the list has cleared its selection. */
    var closed: bool

    constructor (todo: Todo)
      ensures this.todo == todo && editedTodo == todo.todo && listenerText == todo.todo && !closed
    {
      this.todo := todo;
      editedTodo := todo.todo;
      listenerText := todo.todo;
      closed := false;
    }

    /** Typing re-renders the modal only, so the listener is not re-registered. */
    method Input(value: string)
      modifies this
      requires !closed
      ensures editedTodo == value && listenerText == old(listenerText) && closed == old(closed)
    {
      editedTodo := value;
    }

    /** The listener effect re-runs because `onClose` (the list re-rendered)
        or `mutation.isPending` changed: the new listener reads the current text. */
    method Reregister()
      modifies this
      ensures listenerText == editedTodo && editedTodo == old(editedTodo) && closed == old(closed)
    {
      listenerText := editedTodo;
    }

    /** The close button, Cancel, and Escape. */
    method Close()
      modifies this
      ensures closed && editedTodo == old(editedTodo) && listenerText == old(listenerText)
    {
      closed := true;
    }

    /** `mutation.mutate()`: the update for this modal's task is sent with the
        text as typed now. On success the list is patched with the id and text
        the service returned and the modal closes; on failure nothing changes
        and the error is reported. `isPending` rises and falls around the
        request, so the listener is registered again on the current text. */
    method Mutate(query: TodosQuery, reply: Reply<TodoResponse>)
      returns (request: UpdateRequest, result: Result<TodoResponse, Error>)
      modifies this, query
      ensures request == UpdateRequest(todo.id, old(editedTodo))
      ensures result == MutationOutcome(reply, UpdateFailedMessage)
      ensures result.Success? ==>
                query.data == Some(ReplaceText(old(query.data), result.value.id, result.value.todo)) && closed
      ensures result.Failure? ==> query.data == old(query.data) && closed == old(closed)
      ensures editedTodo == old(editedTodo) && listenerText == old(editedTodo)
    {
      request := UpdateRequest(todo.id, editedTodo);
      result := MutationOutcome(reply, UpdateFailedMessage);
      listenerText := editedTodo;
      if result.Success? {
        var data := result.value;
        query.SetQueryData((prev: Option<seq<Todo>>) => ReplaceText(prev, data.id, data.todo));
        closed := true;
      }
    }

    /** `handleUpdate`: whitespace-only text sends nothing; otherwise `Mutate`. */
    method HandleUpdate(query: TodosQuery, reply: Reply<TodoResponse>)
      returns (request: Option<UpdateRequest>, result: Option<Result<TodoResponse, Error>>)
      requires !closed
      modifies this, query
      ensures Trim(old(editedTodo)) == "" ==>
                request == None && result == None && query.data == old(query.data)
                && closed == old(closed) && listenerText == old(listenerText)
      ensures Trim(old(editedTodo)) != "" ==>
                request == Some(UpdateRequest(todo.id, old(editedTodo)))
                && result == Some(MutationOutcome(reply, UpdateFailedMessage))
                && listenerText == old(editedTodo)
      ensures result.Some? && result.value.Success? ==>
                query.data == Some(ReplaceText(old(query.data), result.value.value.id, result.value.value.todo))
                && closed
      ensures !(result.Some? && result.value.Success?) ==> query.data == old(query.data) && closed == old(closed)
      ensures editedTodo == old(editedTodo)
    {
      if Trim(editedTodo) == "" {
        return None, None;
      }
      var sent, outcome := Mutate(query, reply);
      request, result := Some(sent), Some(outcome);
    }

    /** The Update button, disabled while an update is in flight. */
    method ClickUpdate(pending: bool, query: TodosQuery, reply: Reply<TodoResponse>)
      returns (request: Option<UpdateRequest>, result: Option<Result<TodoResponse, Error>>)
      requires !closed
      modifies this, query
      ensures request.Some? ==> !pending && Trim(old(editedTodo)) != "" && listenerText == old(editedTodo)
      ensures request.None? ==> result == None && listenerText == old(listenerText)
      ensures !pending && Trim(old(editedTodo)) != "" ==>
                request == Some(UpdateRequest(todo.id, old(editedTodo)))
                && result == Some(MutationOutcome(reply, UpdateFailedMessage))
      ensures result.Some? && result.value.Success? ==>
                query.data == Some(ReplaceText(old(query.data), result.value.value.id, result.value.value.todo))
                && closed
      ensures !(result.Some? && result.value.Success?) ==> query.data == old(query.data) && closed == old(closed)
      ensures editedTodo == old(editedTodo)
    {
      if pending {
        return None, None;
      }
      request, result := HandleUpdate(query, reply);
    }

    /** The document key handler: Escape closes; Enter, unless an update is in
        flight, runs the `handleUpdate` the listener captured, whose guard
        tests `listenerText` while the request carries the current text. */
    method KeyDown(key: Key, pending: bool, query: TodosQuery, reply: Reply<TodoResponse>)
      returns (request: Option<UpdateRequest>, result: Option<Result<TodoResponse, Error>>)
      requires !closed
      modifies this, query
      ensures key == Enter ==> request == EnterRequest(todo.id, old(listenerText), old(editedTodo), pending)
      ensures key != Enter ==> request == None
      ensures request.None? ==> result == None && listenerText == old(listenerText)
      ensures request.Some? ==> result == Some(MutationOutcome(reply, UpdateFailedMessage)) && listenerText == old(editedTodo)
      ensures key == Escape ==> closed && query.data == old(query.data)
      ensures result.Some? && result.value.Success? ==>
                query.data == Some(ReplaceText(old(query.data), result.value.value.id, result.value.value.todo))
                && closed
      ensures key != Escape && !(result.Some? && result.value.Success?) ==>
                query.data == old(query.data) && closed == old(closed)
      ensures editedTodo == old(editedTodo)
    {
      request, result := None, None;
      if key == Escape {
        Close();
      }
      if key == Enter && !pending && Trim(listenerText) != "" {
        var sent, outcome := Mutate(query, reply);
        request, result := Some(sent), Some(outcome);
      }
    }
  }
}
