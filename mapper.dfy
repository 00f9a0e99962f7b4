/** Conversions between the wire DTOs and the domain entity. */
module Mapper {
  import opened Entities

  /** `TodoResponse.toModel()`. */
  function ToModel(r: TodoResponse): (t: Todo)
    ensures t.userId == r.userId && t.id == r.id && t.title == r.title && t.completed == r.completed
  {
    Todo(userId := r.userId, id := r.id, title := r.title, completed := r.completed)
  }

  /** `Todo.toRequest()`. */
  function ToRequest(t: Todo): (q: TodoRequest)
    ensures q.userId == t.userId && q.id == t.id && q.title == t.title && q.completed == t.completed
  {
    TodoRequest(userId := t.userId, id := t.id, title := t.title, completed := t.completed)
  }

  /** The response a server gives when it echoes a request body back unchanged. */
  function Echo(q: TodoRequest): TodoResponse {
    TodoResponse(q.userId, q.id, q.title, q.completed)
  }

  /** Sending a todo and reading back an echo of it gives the same todo. */
  lemma RequestEchoRoundTrip(t: Todo)
    ensures ToModel(Echo(ToRequest(t))) == t
  {
  }

  /** Distinct todos are sent as distinct request bodies. */
  lemma ToRequestInjective(a: Todo, b: Todo)
    requires ToRequest(a) == ToRequest(b)
    ensures a == b
  {
  }
}
