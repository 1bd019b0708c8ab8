/** Values of the client-side todo store: the todo record, the result of a
    network call, the requests the store sends, and the pure list operations
    its actions apply (find the first match, filter out an id, flip one flag).
 */
module Todos {

  datatype Option<+T> = None | Some(value: T)

  /** One todo record as the backend returns it. */
  datatype Todo = Todo(id: int, title: string, completed: bool)

  /** What a network call produced: the response body, or a failure carrying
      the server's `message` field when the response had one. */
  datatype Outcome<+T> = Success(data: T) | Failure(serverMessage: Option<string>)

  /** The request an action sends to the backend. */
  datatype Request =
    | Get                              // GET /api/todos
    | Post(title: string, completed: bool)  // POST /api/todos
    | Delete(id: int)                  // DELETE /api/todos/:id
    | Put(id: int, payload: Todo)      // PUT /api/todos/:id

  /** What an action's `catch` block receives: an error it threw itself
      (which has no response), or the failure of its request. */
  datatype Caught = LocalError(message: string) | RequestError(serverMessage: Option<string>)

  const FetchDefault: string := "Failed to fetch todos"
  const AddDefault: string := "Failed to add todo"
  const RemoveDefault: string := "Failed to remove todo"
  const ToggleDefault: string := "Failed to toggle todo"
  const NotFound: string := "Todo not found"

  /** The message the store records for a caught error: the server's message
      when the error carries a non-empty one, otherwise the action's fallback. */
  function StoredMessage(e: Caught, fallback: string): (m: string)
    ensures e.LocalError? ==> m == fallback
    ensures e.RequestError? && e.serverMessage.Some? && e.serverMessage.value != "" ==> m == e.serverMessage.value
    ensures e.RequestError? && (e.serverMessage.None? || e.serverMessage.value == "") ==> m == fallback
    ensures fallback != "" ==> m != ""
  {
    match e
    case LocalError(_) => fallback
    case RequestError(Some(msg)) => if msg != "" then msg else fallback
    case RequestError(None) => fallback
  }

  /** Index of the first todo whose id is `id`, if any. */
  function FindFirst(todos: seq<Todo>, id: int): (r: Option<nat>)
    ensures r.Some? ==> r.value < |todos| && todos[r.value].id == id
    ensures r.Some? ==> forall j :: 0 <= j < r.value ==> todos[j].id != id
    ensures r.None? <==> forall j :: 0 <= j < |todos| ==> todos[j].id != id
  {
    if todos == [] then None
    else if todos[0].id == id then Some(0)
    else match FindFirst(todos[1..], id)
      case None => None
      case Some(k) => Some(k + 1)
  }

  /** The todos whose id differs from `id`, in their original order. */
  function WithoutId(todos: seq<Todo>, id: int): (r: seq<Todo>)
    ensures |r| <= |todos|
    ensures forall t :: t in r <==> t in todos && t.id != id
  {
    if todos == [] then []
    else (if todos[0].id == id then [] else [todos[0]]) + WithoutId(todos[1..], id)
  }

  /** `t` with its completed flag flipped; id and title unchanged. */
  function Flipped(t: Todo): (r: Todo)
    ensures r.id == t.id && r.title == t.title && r.completed == !t.completed
  {
    t.(completed := !t.completed)
  }

  /** Reference definition of a toggle: walk the list and flip the first todo
      whose id is `id`, keeping everything after it as it was. */
  function ToggleFirst(todos: seq<Todo>, id: int): (r: seq<Todo>)
    ensures |r| == |todos|
    ensures forall j :: 0 <= j < |r| ==> r[j].id == todos[j].id && r[j].title == todos[j].title
  {
    if todos == [] then []
    else if todos[0].id == id then [Flipped(todos[0])] + todos[1..]
    else [todos[0]] + ToggleFirst(todos[1..], id)
  }

  /** Removing an absent id leaves the list as it was. */
  lemma {:induction false} WithoutIdAbsent(todos: seq<Todo>, id: int)
    requires forall j :: 0 <= j < |todos| ==> todos[j].id != id
    ensures WithoutId(todos, id) == todos
  {
    if todos != [] {
      WithoutIdAbsent(todos[1..], id);
    }
  }

  /** Filtering distributes over concatenation: the todos that survive keep
      their relative order. */
  lemma {:induction false} WithoutIdConcat(a: seq<Todo>, b: seq<Todo>, id: int)
    ensures WithoutId(a + b, id) == WithoutId(a, id) + WithoutId(b, id)
  {
    if a == [] {
      assert a + b == b;
    } else {
      assert (a + b)[1..] == a[1..] + b;
      WithoutIdConcat(a[1..], b, id);
    }
  }

  /** Removing the same id twice is removing it once. */
  lemma WithoutIdIdempotent(todos: seq<Todo>, id: int)
    ensures WithoutId(WithoutId(todos, id), id) == WithoutId(todos, id)
  {
    var r := WithoutId(todos, id);
    forall j | 0 <= j < |r| ensures r[j].id != id {
      assert r[j] in r;
    }
    WithoutIdAbsent(r, id);
  }

  /** With no todo of that id, the toggle leaves the list as it was. */
  lemma {:induction false} ToggleFirstAbsent(todos: seq<Todo>, id: int)
    requires FindFirst(todos, id).None?
    ensures ToggleFirst(todos, id) == todos
  {
    if todos != [] {
      ToggleFirstAbsent(todos[1..], id);
    }
  }

  /** The store's toggle (find the first match, then flip that element in
      place) computes the reference toggle. */
  lemma {:induction false} ToggleFirstAt(todos: seq<Todo>, id: int, i: nat)
    requires FindFirst(todos, id) == Some(i)
    ensures ToggleFirst(todos, id) == todos[i := Flipped(todos[i])]
  {
    if todos[0].id != id {
      var tail := todos[1..];
      ToggleFirstAt(tail, id, i - 1);
      var r := ToggleFirst(todos, id);
      assert r == [todos[0]] + ToggleFirst(tail, id);
      forall j | 0 <= j < |todos|
        ensures r[j] == todos[i := Flipped(todos[i])][j]
      {
        if j > 0 {
          assert r[j] == tail[i - 1 := Flipped(tail[i - 1])][j - 1];
        }
      }
    }
  }

  /** Toggling the same id twice restores the list. */
  lemma {:induction false} ToggleFirstTwice(todos: seq<Todo>, id: int)
    ensures ToggleFirst(ToggleFirst(todos, id), id) == todos
  {
    if todos != [] {
      if todos[0].id == id {
        assert ToggleFirst(todos, id)[1..] == todos[1..];
      } else {
        ToggleFirstTwice(todos[1..], id);
        assert ToggleFirst(todos, id)[1..] == ToggleFirst(todos[1..], id);
      }
    }
  }
}
