/**
 * The older list store (`feature/todo/TodoViewModel`): it holds domain
 * todos, sends no side effects, and toggles its local copy without
 * re-fetching it.
 */
module LegacyTodoStore {
  import opened Wrappers
  import opened Results
  import opened Entities
  import opened ListOps
  import opened Repository

  datatype TodoUiState = TodoUiState(todos: seq<Todo>, isLoading: bool, error: Option<string>)

  const InitialState := TodoUiState([], false, None)
  const LoadFailedText := "알 수 없는 오류가 발생했습니다"
  const UpdateFailedText := "할일 업데이트에 실패했습니다"
  const DeleteFailedText := "할일 삭제에 실패했습니다"

  function TodoId(t: Todo): int {
    t.id
  }

  class TodoViewModel {
    var uiState: TodoUiState
    var repoCalls: seq<RepoCall>
    /** Every value assigned to `_uiState.value`, in order; the last one is current. */
    ghost var stateWrites: seq<TodoUiState>

    /** The current state is the last one written. */
    ghost predicate Valid()
      reads this
    {
      && |stateWrites| > 0
      && stateWrites[|stateWrites| - 1] == uiState
    }

    constructor (repo: TodoRepository)
      ensures Valid()
      ensures stateWrites[0] == InitialState
      ensures repoCalls == [ListCall]
      ensures match repo.getTodoList()
        case Success(todos) => uiState == TodoUiState(todos, false, None)
        case Failure(e) => uiState == TodoUiState([], false, Some(MessageOr(e, LoadFailedText)))
    {
      uiState := InitialState;
      repoCalls := [];
      stateWrites := [InitialState];
      new;
      LoadTodos(repo);
    }

    method SetState(s: TodoUiState)
      modifies this
      ensures uiState == s && stateWrites == old(stateWrites) + [s]
      ensures repoCalls == old(repoCalls)
    {
      uiState := s;
      stateWrites := stateWrites + [s];
    }

    /**
     * Sets `isLoading` first; then success replaces the list and clears the
     * error, failure keeps the list and records the message (or the
     * fallback); both end not loading.
     */
    method LoadTodos(repo: TodoRepository)
      requires Valid()
      modifies this
      ensures Valid()
      ensures repoCalls == old(repoCalls) + [ListCall]
      ensures stateWrites == old(stateWrites) + [old(uiState).(isLoading := true), uiState]
      ensures !uiState.isLoading
      ensures match repo.getTodoList()
        case Success(todos) => uiState == old(uiState).(todos := todos, isLoading := false, error := None)
        case Failure(e) => uiState == old(uiState).(isLoading := false, error := Some(MessageOr(e, LoadFailedText)))
    {
      SetState(uiState.(isLoading := true));
      repoCalls := repoCalls + [ListCall];
      match repo.getTodoList()
      case Success(todos) =>
        SetState(uiState.(todos := todos, isLoading := false, error := None));
      case Failure(e) =>
        SetState(uiState.(isLoading := false, error := Some(MessageOr(e, LoadFailedText))));
    }

    /**
     * An id the list does not hold: no call, no write. Otherwise the first
     * item with that id, flipped, is sent as the update; success puts that
     * flipped copy in place of every item with the id (same length, other
     * items unchanged), failure keeps the list and sets the error.
     */
    method ToggleTodoComplete(repo: TodoRepository, todoId: int)
      requires Valid()
      modifies this
      ensures Valid()
      ensures |uiState.todos| == |old(uiState.todos)|
      ensures match FindById(old(uiState.todos), TodoId, todoId)
        case None =>
          && uiState == old(uiState) && repoCalls == old(repoCalls) && stateWrites == old(stateWrites)
        case Some(local) =>
          var updated := local.(completed := !local.completed);
          && local in old(uiState.todos)
          && repoCalls == old(repoCalls) + [UpdateCall(updated)]
          && stateWrites == old(stateWrites) + [uiState]
          && match repo.updateTodo(updated)
            case Success(_) =>
              uiState == old(uiState).(todos := ReplaceById(old(uiState.todos), TodoId, todoId, updated))
            case Failure(e) =>
              uiState == old(uiState).(error := Some(MessageOr(e, UpdateFailedText)))
    {
      var found := FindById(uiState.todos, TodoId, todoId);
      if found.None? {
        return;
      }
      var local := found.value;
      var updated := local.(completed := !local.completed);
      repoCalls := repoCalls + [UpdateCall(updated)];
      match repo.updateTodo(updated)
      case Success(_) =>
        SetState(uiState.(todos := ReplaceById(uiState.todos, TodoId, todoId, updated)));
      case Failure(e) =>
        SetState(uiState.(error := Some(MessageOr(e, UpdateFailedText))));
    }

    /**
     * Always asks the repository; success keeps exactly the items whose id
     * differs, in order; failure keeps the list and sets the error.
     */
    method DeleteTodo(repo: TodoRepository, todoId: int)
      requires Valid()
      modifies this
      ensures Valid()
      ensures repoCalls == old(repoCalls) + [DeleteCall(todoId)]
      ensures stateWrites == old(stateWrites) + [uiState]
      ensures match repo.deleteTodo(todoId)
        case Success(_) => uiState == old(uiState).(todos := RemoveById(old(uiState.todos), TodoId, todoId))
        case Failure(e) => uiState == old(uiState).(error := Some(MessageOr(e, DeleteFailedText)))
    {
      repoCalls := repoCalls + [DeleteCall(todoId)];
      match repo.deleteTodo(todoId)
      case Success(_) =>
        SetState(uiState.(todos := RemoveById(uiState.todos, TodoId, todoId)));
      case Failure(e) =>
        SetState(uiState.(error := Some(MessageOr(e, DeleteFailedText))));
    }

    /** Only the error changes; a second call changes nothing. */
    method ClearError()
      requires Valid()
      modifies this
      ensures Valid()
      ensures uiState == old(uiState).(error := None)
      ensures old(uiState.error).None? ==> uiState == old(uiState)
      ensures repoCalls == old(repoCalls) && stateWrites == old(stateWrites) + [uiState]
    {
      SetState(uiState.(error := None));
    }
  }
}
