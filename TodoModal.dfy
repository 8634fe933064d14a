/** The "Add Todo" modal: its form validation, the create request, the append
    patch applied once the service confirms, and the open/closed state. */
module TodoModal {
  import opened Types
  import opened Text
  import opened Sequences
  import opened QueryCache
  import TodoList

  const AddFailedMessage := "Failed to add task"
  const RequiredMessage := "Todo is required"
  const MinLengthMessage := "Todo must be at least 1 character"
  const EmptyMessage := "Todo cannot be empty"

  /** The JSON body of the create request. */
  datatype CreateRequest = CreateRequest(todo: string, completed: bool, userId: int)

  /** The field's rules in the order the form library applies them:
      `required`, `minLength: 1`, then `validate` (the trimmed text is not
      empty). The result is the message shown, or nothing when valid. */
  function Validate(value: string): (error: Option<string>)
    ensures error.None? <==> Trim(value) != ""
    ensures value == "" ==> error == Some(RequiredMessage)
    ensures value != "" && Trim(value) == "" ==> error == Some(EmptyMessage)
  {
    if value == "" then Some(RequiredMessage)
    else if |value| < 1 then Some(MinLengthMessage)
    else if Trim(value) == "" then Some(EmptyMessage)
    else None
  }

  /** Empty or whitespace-only input never passes validation. */
  lemma BlankNeverValid(value: string)
    ensures Validate(value).None? <==> !AllWhitespace(value)
  {
    TrimEmptyIffBlank(value);
  }

  /** The request sent for the typed text: the text as typed, not trimmed,
      not completed, owned by user 1. */
  function CreateBody(value: string): (req: CreateRequest)
    ensures req.todo == value && !req.completed && req.userId == 1
  {
    CreateRequest(value, false, 1)
  }

  /** The append patch `old ? [...old, data] : [data]`. */
  function AppendTodo(prev: Option<seq<Todo>>, data: TodoResponse): (r: seq<Todo>)
    ensures prev.None? ==> r == [AsTodo(data)]
    ensures prev.Some? ==> |r| == |prev.value| + 1 && r[..|prev.value|] == prev.value
    ensures r != [] && r[|r| - 1] == AsTodo(data)
  {
    match prev
    case None => [AsTodo(data)]
    case Some(list) => list + [AsTodo(data)]
  }

  /** How many tasks in `list` carry `id`. */
  function CountId(list: seq<Todo>, id: int): nat
    decreases |list|
  {
    if list == [] then 0
    else (if list[0].id == id then 1 else 0) + CountId(list[1..], id)
  }

  lemma {:induction false} CountIdAppend(list: seq<Todo>, t: Todo, id: int)
    ensures CountId(list + [t], id) == CountId(list, id) + (if t.id == id then 1 else 0)
    decreases |list|
  {
    if list != [] {
      assert (list + [t])[1..] == list[1..] + [t];
      CountIdAppend(list[1..], t, id);
    }
  }

  /** The append is not deduplicated: the returned id occurs exactly once
      more than before, whether or not it was already present. */
  lemma AppendAddsOneWithId(prev: Option<seq<Todo>>, data: TodoResponse)
    ensures CountId(AppendTodo(prev, data), data.id)
         == (if prev.Some? then CountId(prev.value, data.id) else 0) + 1
  {
    var before := if prev.Some? then prev.value else [];
    CountIdAppend(before, AsTodo(data), data.id);
    assert AppendTodo(prev, data) == before + [AsTodo(data)];
  }

  /** Deleting the id a create returned, when it was new, restores the list
      as it was before the create. */
  lemma DeleteUndoesAppend(list: seq<Todo>, data: TodoResponse)
    requires forall i :: 0 <= i < |list| ==> list[i].id != data.id
    ensures TodoList.RemoveById(Some(AppendTodo(Some(list), data)), data.id) == list
  {
    var keep := TodoList.HasOtherId(data.id);
    FilterAppend(list, [AsTodo(data)], keep);
    TodoList.RemoveAbsentId(list, data.id);
    assert Filter([AsTodo(data)], keep) == [];
  }

  /** Enter submits only with non-blank text and no create in flight. */
  predicate EnterSubmits(value: string, pending: bool): (r: bool)
    ensures r <==> !pending && !AllWhitespace(value)
  {
    TrimEmptyIffBlank(value);
    Trim(value) != "" && !pending
  }

  class AddTodoModal {
    var isOpen: bool
    /** The form's `todo` field. */
    var todoValue: string

    constructor ()
      ensures !isOpen && todoValue == ""
    {
      isOpen := false;
      todoValue := "";
    }

    /** The "Add Todo" button. */
    method Open()
      modifies this
      ensures isOpen && todoValue == old(todoValue)
    {
      isOpen := true;
    }

    method Input(value: string)
      modifies this
      ensures todoValue == value && isOpen == old(isOpen)
    {
      todoValue := value;
    }

    /** Cancel: `reset()` then close. */
    method Cancel()
      modifies this
      ensures !isOpen && todoValue == ""
    {
      todoValue := "";
      isOpen := false;
    }

    /** `handleSubmit(onSubmit)`: an invalid form or blank text sends nothing;
        otherwise the create request is sent, and on success the returned task
        is appended, the form reset and the modal closed. On failure nothing
        changes and the error is reported. */
    method Submit(query: TodosQuery, reply: Reply<TodoResponse>)
      returns (request: Option<CreateRequest>, result: Option<Result<TodoResponse, Error>>)
      modifies this, query
      ensures Trim(old(todoValue)) == "" ==> request == None && result == None
      ensures Trim(old(todoValue)) != "" ==>
                request == Some(CreateBody(old(todoValue))) && result == Some(MutationOutcome(reply, AddFailedMessage))
      ensures result.Some? && result.value.Success? ==>
                query.data == Some(AppendTodo(old(query.data), result.value.value)) && !isOpen && todoValue == ""
      ensures !(result.Some? && result.value.Success?) ==>
                query.data == old(query.data) && isOpen == old(isOpen) && todoValue == old(todoValue)
    {
      var text := todoValue;
      var blank := Trim(text) == "";
      // the form's rules stop the submit first; `onSubmit`'s own trim check agrees with them
      if Validate(text).Some? || blank {
        return None, None;
      }
      request := Some(CreateBody(text));
      var outcome := MutationOutcome(reply, AddFailedMessage);
      result := Some(outcome);
      if outcome.Success? {
        Created(query, outcome.value);
      }
    }

    /** `onSuccess` of the create: append the returned task, reset, close. */
    method Created(query: TodosQuery, data: TodoResponse)
      modifies this, query
      ensures query.data == Some(AppendTodo(old(query.data), data)) && !isOpen && todoValue == ""
    {
      query.SetQueryData((prev: Option<seq<Todo>>) => AppendTodo(prev, data));
      todoValue := "";
      isOpen := false;
    }

    /** The "Add" button, disabled while the form is invalid or a create is
        in flight. */
    method ClickAdd(pending: bool, query: TodosQuery, reply: Reply<TodoResponse>)
      returns (request: Option<CreateRequest>, result: Option<Result<TodoResponse, Error>>)
      modifies this, query
      ensures request.Some? ==> !pending && Trim(old(todoValue)) != "" && request == Some(CreateBody(old(todoValue)))
      ensures !pending && Trim(old(todoValue)) != "" ==>
                request == Some(CreateBody(old(todoValue))) && result == Some(MutationOutcome(reply, AddFailedMessage))
      ensures request.None? ==> result == None
      ensures result.Some? && result.value.Success? ==>
                query.data == Some(AppendTodo(old(query.data), result.value.value)) && !isOpen && todoValue == ""
      ensures !(result.Some? && result.value.Success?) ==>
                query.data == old(query.data) && isOpen == old(isOpen) && todoValue == old(todoValue)
    {
      if pending || Validate(todoValue).Some? {
        return None, None;
      }
      request, result := Submit(query, reply);
    }

    /** The document key handler, registered only while the modal is open:
        Escape closes and resets; Enter submits when the text is not blank and
        no create is in flight. */
    method KeyDown(key: Key, pending: bool, query: TodosQuery, reply: Reply<TodoResponse>)
      returns (request: Option<CreateRequest>, result: Option<Result<TodoResponse, Error>>)
      modifies this, query
      ensures request.Some? ==>
                old(isOpen) && key == Enter && EnterSubmits(old(todoValue), pending)
                && request == Some(CreateBody(old(todoValue)))
      ensures old(isOpen) && key == Enter && EnterSubmits(old(todoValue), pending) ==>
                request == Some(CreateBody(old(todoValue))) && result == Some(MutationOutcome(reply, AddFailedMessage))
      ensures request.None? ==> result == None
      ensures old(isOpen) && key == Escape ==> !isOpen && todoValue == "" && query.data == old(query.data)
      ensures result.Some? && result.value.Success? ==>
                query.data == Some(AppendTodo(old(query.data), result.value.value)) && !isOpen && todoValue == ""
      ensures !(old(isOpen) && key == Escape) && !(result.Some? && result.value.Success?) ==>
                query.data == old(query.data) && isOpen == old(isOpen) && todoValue == old(todoValue)
    {
      request, result := None, None;
      if !isOpen {
        return;
      }
      if key == Escape {
        isOpen := false;
        todoValue := "";
      }
      if key == Enter && EnterSubmits(todoValue, pending) {
        request, result := Submit(query, reply);
      }
    }
  }
}
