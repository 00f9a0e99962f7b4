/**
 * `TodoRepositoryImpl`: each operation runs one API call through the
 * normaliser and maps only a success payload from DTO to domain entity.
 * The Retrofit service is an oracle: one function per endpoint, from the
 * request it is given to the outcome of the call.
 */
module RepositoryImpl {
  import opened Wrappers
  import opened TodoExceptions
  import opened Results
  import opened Entities
  import opened Mapper
  import opened ListOps
  import opened NetworkExtensions
  import Repository

  /** `TossApiService`: path ids and request bodies in, transport outcomes out. */
  datatype TossApi = TossApi(
    getTodoList: () -> ApiCallOutcome<seq<TodoResponse>>,
    getTodoById: int -> ApiCallOutcome<TodoResponse>,
    create: TodoRequest -> ApiCallOutcome<TodoResponse>,
    update: (int, TodoRequest) -> ApiCallOutcome<TodoResponse>,
    delete: int -> ApiCallOutcome<()>)

  /** Success: every response item mapped by `toModel`, same length and order; failure: as normalised. */
  function GetTodoList(api: TossApi): (r: Result<seq<Todo>>)
    ensures var raw := ExecuteApiCall(api.getTodoList());
      && (raw.Failure? ==> r.Failure? && r.exception == raw.exception)
      && (raw.Success? ==> r.Success? && |r.value| == |raw.value|
                           && forall i :: 0 <= i < |raw.value| ==> r.value[i] == ToModel(raw.value[i]))
  {
    ExecuteApiCall(api.getTodoList()).Map(list => MapSeq(list, ToModel))
  }

  /** The API is asked for exactly `id`; a success is the mapped response. */
  function GetTodoById(api: TossApi, id: int): (r: Result<Todo>)
    ensures var raw := ExecuteApiCall(api.getTodoById(id));
      && (raw.Failure? ==> r.Failure? && r.exception == raw.exception)
      && (raw.Success? ==> r.Success? && r.value == ToModel(raw.value))
  {
    ExecuteApiCall(api.getTodoById(id)).Map(ToModel)
  }

  /** The API receives `toRequest(todo)`; a success is the server's copy, mapped. */
  function CreateTodo(api: TossApi, todo: Todo): (r: Result<Todo>)
    ensures var raw := ExecuteApiCall(api.create(ToRequest(todo)));
      && (raw.Failure? ==> r.Failure? && r.exception == raw.exception)
      && (raw.Success? ==> r.Success? && r.value == ToModel(raw.value))
  {
    ExecuteApiCall(api.create(ToRequest(todo))).Map(ToModel)
  }

  /** The API receives `todo.id` as path id and `toRequest(todo)` as body. */
  function UpdateTodo(api: TossApi, todo: Todo): (r: Result<Todo>)
    ensures var raw := ExecuteApiCall(api.update(todo.id, ToRequest(todo)));
      && (raw.Failure? ==> r.Failure? && r.exception == raw.exception)
      && (raw.Success? ==> r.Success? && r.value == ToModel(raw.value))
  {
    ExecuteApiCall(api.update(todo.id, ToRequest(todo))).Map(ToModel)
  }

  /** The normaliser's `Result<Unit>` for a delete of exactly `todoId`, unmapped. */
  function DeleteTodo(api: TossApi, todoId: int): (r: Result<()>)
    ensures r.Success? <==> api.delete(todoId).Responded? && api.delete(todoId).response.IsSuccessful()
                            && api.delete(todoId).response.body.Some?
    ensures r.Failure? ==> r.exception == ExecuteApiCall(api.delete(todoId)).exception
  {
    ExecuteApiCall(api.delete(todoId))
  }

  /** The implementation, seen through the interface the stores use. */
  function Impl(api: TossApi): Repository.TodoRepository {
    Repository.TodoRepository(
      () => GetTodoList(api),
      id => GetTodoById(api, id),
      t => CreateTodo(api, t),
      t => UpdateTodo(api, t),
      id => DeleteTodo(api, id))
  }

  /** A server that answers an update by echoing the body makes the update return the todo sent. */
  lemma UpdateEchoRoundTrip(api: TossApi, todo: Todo, code: int)
    requires 200 <= code < 300
    requires api.update(todo.id, ToRequest(todo)) == Responded(Response(code, Some(Echo(ToRequest(todo))), None))
    ensures UpdateTodo(api, todo).Success? && UpdateTodo(api, todo).value == todo
  {
    RequestEchoRoundTrip(todo);
  }

  /**
   * A 404 for a fetch surfaces as a NetworkError carrying 404, not as
   * NotFoundError: the implementation never classifies statuses.
   */
  lemma NotFoundIsNetworkError(api: TossApi, id: int, errorBody: Option<string>)
    requires api.getTodoById(id).Responded? && api.getTodoById(id).response.code == 404
    requires api.getTodoById(id).response.errorBody == errorBody
    ensures var r := GetTodoById(api, id);
      r.Failure? && r.exception == TodoError(NetworkError(404, errorBody))
  {
  }

  /** A successful delete whose response has no body is reported as EmptyBodyError. */
  lemma DeleteWithoutBodyFails(api: TossApi, todoId: int)
    requires api.delete(todoId).Responded? && api.delete(todoId).response.IsSuccessful()
    requires api.delete(todoId).response.body.None?
    ensures var r := DeleteTodo(api, todoId);
      r.Failure? && r.exception == TodoError(EmptyBodyError)
  {
  }

  /**
   * Every failure the implementation returns, from any of the five operations,
   * carries a message, so a store wired to it never shows its own fallback text.
   */
  lemma ImplFailuresCarryMessages(api: TossApi, id: int, todo: Todo)
    ensures var repo := Impl(api);
      && (repo.getTodoList().Failure? ==> MessageOf(repo.getTodoList().exception).Some?)
      && (repo.getTodoById(id).Failure? ==> MessageOf(repo.getTodoById(id).exception).Some?)
      && (repo.createTodo(todo).Failure? ==> MessageOf(repo.createTodo(todo).exception).Some?)
      && (repo.updateTodo(todo).Failure? ==> MessageOf(repo.updateTodo(todo).exception).Some?)
      && (repo.deleteTodo(id).Failure? ==> MessageOf(repo.deleteTodo(id).exception).Some?)
  {
    FailuresCarryMessages(api.getTodoList());
    FailuresCarryMessages(api.getTodoById(id));
    FailuresCarryMessages(api.create(ToRequest(todo)));
    FailuresCarryMessages(api.update(todo.id, ToRequest(todo)));
    FailuresCarryMessages(api.delete(id));
  }
}
