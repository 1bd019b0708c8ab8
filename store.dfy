/** The client-side todo store: two fields, `todos` and `error`, and four
    actions. Each action makes at most one request, whose result is passed in
    as an `Outcome`; on success it changes `todos` and clears `error`, on
    failure it leaves `todos` alone and records a message. Every action
    returns the request it sent, or `None` when it sent none.
 */
module Store {
  import opened Todos

  class TodoStore {
    var todos: seq<Todo>
    var error: Option<string>

    /** The initial state: no todos, no error. */
    constructor ()
      ensures todos == [] && error == None
    {
      todos := [];
      error := None;
    }

    /** Load the list from the backend, replacing the local one wholesale. */
    method FetchTodos(outcome: Outcome<seq<Todo>>) returns (sent: Option<Request>)
      modifies this
      ensures sent == Some(Get)
      ensures outcome.Success? ==> todos == outcome.data && error == None
      ensures outcome.Failure? ==>
        todos == old(todos) &&
        error == Some(StoredMessage(RequestError(outcome.serverMessage), FetchDefault))
    {
      sent := Some(Get);
      match outcome
      case Success(data) =>
        todos := data;
        error := None;
      case Failure(msg) =>
        error := Some(StoredMessage(RequestError(msg), FetchDefault));
    }

    /** Create a todo on the backend and append the record it returns. */
    method AddTodo(title: string, outcome: Outcome<Todo>) returns (sent: Option<Request>)
      modifies this
      ensures sent == Some(Post(title, false))
      ensures outcome.Success? ==> todos == old(todos) + [outcome.data] && error == None
      ensures outcome.Failure? ==>
        todos == old(todos) &&
        error == Some(StoredMessage(RequestError(outcome.serverMessage), AddDefault))
    {
      sent := Some(Post(title, false));
      match outcome
      case Success(created) =>
        todos := todos + [created];
        error := None;
      case Failure(msg) =>
        error := Some(StoredMessage(RequestError(msg), AddDefault));
    }

    /** Delete a todo on the backend, then drop every local todo with that id. */
    method RemoveTodo(id: int, outcome: Outcome<()>) returns (sent: Option<Request>)
      modifies this
      ensures sent == Some(Delete(id))
      ensures outcome.Success? ==> todos == WithoutId(old(todos), id) && error == None
      ensures outcome.Failure? ==>
        todos == old(todos) &&
        error == Some(StoredMessage(RequestError(outcome.serverMessage), RemoveDefault))
    {
      sent := Some(Delete(id));
      match outcome
      case Success(_) =>
        todos := WithoutId(todos, id);
        error := None;
      case Failure(msg) =>
        error := Some(StoredMessage(RequestError(msg), RemoveDefault));
    }

    /** Flip the completed flag of the first todo with this id, on the backend
        and then locally. An id with no local todo fails before any request,
        with an error that carries no server message. */
    method ToggleTodo(id: int, outcome: Outcome<()>) returns (sent: Option<Request>)
      modifies this
      ensures FindFirst(old(todos), id).None? ==>
        sent == None && todos == old(todos) &&
        error == Some(StoredMessage(LocalError(NotFound), ToggleDefault))
      ensures FindFirst(old(todos), id).Some? ==>
        var i := FindFirst(old(todos), id).value;
        sent == Some(Put(id, Flipped(old(todos)[i]))) &&
        (outcome.Success? ==> todos == ToggleFirst(old(todos), id) && error == None) &&
        (outcome.Failure? ==>
          todos == old(todos) &&
          error == Some(StoredMessage(RequestError(outcome.serverMessage), ToggleDefault)))
    {
      match FindFirst(todos, id)
      case None =>
        sent := None;
        error := Some(StoredMessage(LocalError(NotFound), ToggleDefault));
      case Some(i) =>
        var updated := Flipped(todos[i]);
        sent := Some(Put(id, updated));
        match outcome
        case Success(_) =>
          ToggleFirstAt(todos, id, i);
          todos := todos[i := updated];
          error := None;
        case Failure(msg) =>
          error := Some(StoredMessage(RequestError(msg), ToggleDefault));
    }
  }

  /** Two successful toggles of an id that is present leave the list as it was. */
  method ToggleTwice(store: TodoStore, id: int)
    requires FindFirst(store.todos, id).Some?
    modifies store
    ensures store.todos == old(store.todos) && store.error == None
  {
    var first := store.ToggleTodo(id, Success(()));
    var second := store.ToggleTodo(id, Success(()));
    ToggleFirstTwice(old(store.todos), id);
  }
}
