/** The in-memory `['todos']` query: the one task list the UI shows. Loads
    replace it wholesale; mutations patch it through `setQueryData`. */
module QueryCache {
  import opened Types

  class TodosQuery {
    /** The query's data; `None` until a load has succeeded. */
    var data: Option<seq<Todo>>

    constructor ()
      ensures data == None
    {
      data := None;
    }

    /** `setQueryData(['todos'], updater)`: the updater receives the current
        data (or nothing) and its result becomes the data. */
    method SetQueryData(updater: Option<seq<Todo>> -> seq<Todo>)
      modifies this
      ensures data == Some(updater(old(data)))
    {
      data := Some(updater(data));
    }
  }
}
