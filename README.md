# Todo store model

A Dafny model of the client-side todo store of a small todo-list application
(`src/stores/useTodoStore.js`). The store holds two fields: `todos`, the ordered
list of `{id, title, completed}` records, and `error`, the last error message or
none. It has four actions, `fetchTodos`, `addTodo`, `removeTodo` and `toggleTodo`.
Each one makes at most one request to the backend. On success it changes the list locally
and clears `error`. On failure it leaves the list alone and records a message.

The model has two modules:

- `Todos` (`todos.dfy`) holds the values:
  - the `Todo` record;
  - the `Outcome` of a request, either `Success(data)` or `Failure(serverMessage)`;
  - the `Request` an action sends;
  - the `Caught` error an action's handler receives.
  It also holds the pure list operations the actions use, with lemmas about them:
  - `FindFirst` is the `find` of line 50.
  - `WithoutId` is the `filter` of line 40.
  - `Flipped` builds the payload of line 53.
  - `ToggleFirst` is a reference definition of the toggle.
  - `StoredMessage` is the `error.response?.data?.message || default` rule.
- `Store` (`store.dfy`) holds the class `TodoStore`. It has the two fields and one
  method per action. A method takes the request's result as an input `Outcome` and
  returns the request it sent, or `None` if it sent none. Its postcondition states
  the whole new state in terms of the old one.

`toggleTodo` on an id that has no local todo throws a local `Error('Todo not found')`
before any request. That error has no `response`, so the handler records the
fallback `'Failed to toggle todo'`, not `'Todo not found'`. The model keeps this:
the thrown error is `LocalError(NotFound)`, and `StoredMessage` maps it to the
fallback.

## Model

| member | source | states |
|---|---|---|
| `Todos.StoredMessage` | src/stores/useTodoStore.js:59-60 | A locally thrown error (no response) yields the action's fallback. A request failure yields the server's message when present and non-empty, else the fallback. With a non-empty fallback the stored message is never empty. The same rule is used on lines 17-18, 31-32 and 42-43 |
| `Todos.FindFirst` | src/stores/useTodoStore.js:50 | The result is the index of a todo with that id, and no earlier todo has that id. It is none exactly when no todo has that id |
| `Todos.WithoutId` | src/stores/useTodoStore.js:40 | A todo is in the result if and only if it is in the input and its id differs from the removed one. The result is no longer than the input |
| `Todos.Flipped` | src/stores/useTodoStore.js:53 | The updated record keeps id and title, and its completed flag is the negation of the old one |
| `Todos.ToggleFirst` | src/stores/useTodoStore.js:53-57 | The toggle keeps the length of the list and the id and title of every position |
| `Todos.WithoutIdAbsent` | src/stores/useTodoStore.js:40 | Removing an id that no todo has leaves the list unchanged |
| `Todos.WithoutIdConcat` | src/stores/useTodoStore.js:40 | Filtering distributes over concatenation, so surviving todos keep their relative order |
| `Todos.WithoutIdIdempotent` | src/stores/useTodoStore.js:40 | Removing the same id twice gives the same list as removing it once |
| `Todos.ToggleFirstAbsent` | src/stores/useTodoStore.js:50-51 | With no todo of that id, the reference toggle leaves the list unchanged |
| `Todos.ToggleFirstAt` | src/stores/useTodoStore.js:50-57 | When the first todo with the id is at index i, the reference toggle equals flipping the element at i in place. Every other position, including later duplicates of the id, stays unchanged |
| `Todos.ToggleFirstTwice` | src/stores/useTodoStore.js:53-57 | Toggling the same id twice restores the original list |
| `Store.TodoStore.constructor` | src/stores/useTodoStore.js:5-8 | The store starts with an empty list and no error |
| `Store.TodoStore.FetchTodos` | src/stores/useTodoStore.js:12-19 | Sends a GET. On success, `todos` becomes the response list and `error` is cleared. On failure, `todos` is unchanged and `error` is the selected message with fallback 'Failed to fetch todos' |
| `Store.TodoStore.AddTodo` | src/stores/useTodoStore.js:23-33 | Sends a POST with the title and `completed: false`. On success, the returned record is appended at the end of `todos`, earlier items are untouched, and `error` is cleared. On failure, `todos` is unchanged and `error` is set with fallback 'Failed to add todo' |
| `Store.TodoStore.RemoveTodo` | src/stores/useTodoStore.js:37-44 | Sends a DELETE for the id. On success, `todos` becomes the list without that id, and `error` is cleared. On failure, `todos` is unchanged and `error` is set with fallback 'Failed to remove todo' |
| `Store.TodoStore.ToggleTodo` | src/stores/useTodoStore.js:48-61 | With no local todo of that id: no request is sent, `todos` is unchanged, and `error` is 'Failed to toggle todo'. Otherwise it sends a PUT whose payload is the first match with only `completed` flipped. On success, `todos` is the reference toggle of the old list and `error` is cleared. On failure, `todos` is unchanged and `error` is set with fallback 'Failed to toggle todo' |
| `Store.ToggleTwice` | src/stores/useTodoStore.js:48-61 | Two successful toggles of a present id, one after the other, restore `todos` and leave `error` cleared |

## Left out

- HTTP transport: the axios calls, URLs and `async`/`await` suspension are not modelled. Each request's result is an input `Outcome`, and the request itself is returned as a `Request` value.
- The backend (`backend/server.js`) is not part of this model. It is Express routing and CORS over sqlite calls. Id generation, delete and update of a missing row, and plain-text error bodies are sqlite and Express behaviour.
- Concurrency: actions that interleave at their `await`, such as a toggle racing a remove, are not modelled. Each method runs to completion.
- Pinia's `defineStore` and its reactivity are not modelled. The store is a plain object with two fields.
- Store.TodoStore.ToggleTodo: todos are values, so the in-place write through the found object reference (line 57) is modelled as an update of the list at the first match's index. Aliasing of one todo object at several positions, or outside the store, is not captured. The list built by `push` and by parsed responses never shares objects.
- Error payloads: the server's `message` is an optional string. A non-string truthy value in that field is not modelled, nor other JavaScript falsy values besides a missing or empty message.
- Ids are integers compared by value. JavaScript's `===` between a string id and a numeric id, which is always false, is not modelled.
- Response bodies are assumed to have the expected shape: a list of todos for fetch and one todo for add. `completed` is modelled as a boolean, but rows read back from the backend's sqlite `BOOLEAN` column carry 0 or 1. After a fetch, `!todo.completed` turns 0 into `true`, and a second toggle gives `false`, not 0. So for fetched rows, `ToggleFirstTwice` and `ToggleTwice` restore `completed` only up to truthiness.
