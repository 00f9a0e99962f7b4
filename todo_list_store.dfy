/**
 * The list screen's state store (`feature/todo/main/TodoViewModel`): an
 * immutable `TodoUiState` replaced on every step, plus a stream of one-shot
 * side effects. Toggling re-fetches the server copy before updating it.
 */
module TodoListStore {
  import opened Wrappers
  import opened Results
  import opened Entities
  import opened TodoMapper
  import opened ListOps
  import opened Repository

  datatype TodoUiState = TodoUiState(todos: seq<TodoUiModel>, isLoading: bool, error: Option<string>)

  datatype TodoAction = LoadTodos | ToggleTodoComplete(todoId: int) | DeleteTodo(todoId: int) | ClearError

  datatype TodoSideEffect =
    | TodosLoaded
    | TodoStatusChanged(todoId: int, completed: bool)
    | TodoDeleted(todoTitle: string)
    | ShowError(message: string)

  const InitialState := TodoUiState([], false, None)
  const LoadFailedText := "알 수 없는 오류가 발생했습니다"
  const UpdateFailedText := "할일 업데이트에 실패했습니다"
  const DeleteFailedText := "할일 삭제에 실패했습니다"

  function UiId(u: TodoUiModel): int {
    u.id
  }

  class TodoViewModel {
    /** The current snapshot held by the state flow. */
    var uiState: TodoUiState
    /** Every side effect sent on the channel, in order. */
    var sideEffects: seq<TodoSideEffect>
    /** Every repository invocation, in order. */
    var repoCalls: seq<RepoCall>
    /** Every snapshot written to the state flow, in order; the last one is current. */
    ghost var stateWrites: seq<TodoUiState>

    /** The current state is the last one written, and there are no more side effects than repository calls. */
    ghost predicate Valid()
      reads this
    {
      && |stateWrites| > 0
      && stateWrites[|stateWrites| - 1] == uiState
      && |sideEffects| <= |repoCalls|
    }

    /** Construction starts from the default state and immediately loads the list. */
    constructor (repo: TodoRepository)
      ensures Valid()
      ensures stateWrites[0] == InitialState
      ensures repoCalls == [ListCall]
      ensures match repo.getTodoList()
        case Success(todos) =>
          && uiState == TodoUiState(MapSeq(todos, ToUiModel), false, None)
          && sideEffects == [TodosLoaded]
        case Failure(e) =>
          && uiState == TodoUiState([], false, Some(MessageOr(e, LoadFailedText)))
          && sideEffects == [ShowError(MessageOr(e, LoadFailedText))]
    {
      uiState := InitialState;
      sideEffects := [];
      repoCalls := [];
      stateWrites := [InitialState];
      new;
      LoadTodos(repo);
    }

    /** Replaces the snapshot, as `_uiState.update { ... }` does. */
    method SetState(s: TodoUiState)
      modifies this
      ensures uiState == s && stateWrites == old(stateWrites) + [s]
      ensures sideEffects == old(sideEffects) && repoCalls == old(repoCalls)
    {
      uiState := s;
      stateWrites := stateWrites + [s];
    }

    /**
     * Loading: first a write with `isLoading` set, then on success the list
     * mapped to UI models (same length and order), not loading, no error, and
     * `TodosLoaded`; on failure the old list, not loading, the failure's
     * message (or the fallback) as error, and `ShowError` with that message.
     */
    twostate predicate LoadDone(repo: TodoRepository)
      reads this
    {
      var loading := old(uiState).(isLoading := true);
      && repoCalls == old(repoCalls) + [ListCall]
      && stateWrites == old(stateWrites) + [loading, uiState]
      && match repo.getTodoList()
        case Success(todos) =>
          && uiState == loading.(todos := MapSeq(todos, ToUiModel), isLoading := false, error := None)
          && sideEffects == old(sideEffects) + [TodosLoaded]
        case Failure(e) =>
          var message := MessageOr(e, LoadFailedText);
          && uiState == loading.(isLoading := false, error := Some(message))
          && sideEffects == old(sideEffects) + [ShowError(message)]
    }

    /**
     * Toggling always fetches `todoId` and, if that succeeds, updates the
     * server copy with `completed` flipped. Only on success of both does the
     * list change: every item with `todoId` becomes the flipped server copy,
     * and `TodoStatusChanged` reports the new flag. A failure of either call
     * sets the error and sends `ShowError`, leaving the list untouched.
     */
    twostate predicate ToggleDone(repo: TodoRepository, todoId: int)
      reads this
    {
      match repo.getTodoById(todoId)
      case Failure(e) =>
        var message := MessageOr(e, UpdateFailedText);
        && repoCalls == old(repoCalls) + [ByIdCall(todoId)]
        && uiState == old(uiState).(error := Some(message))
        && stateWrites == old(stateWrites) + [uiState]
        && sideEffects == old(sideEffects) + [ShowError(message)]
      case Success(server) =>
        var updated := server.(completed := !server.completed);
        && repoCalls == old(repoCalls) + [ByIdCall(todoId), UpdateCall(updated)]
        && stateWrites == old(stateWrites) + [uiState]
        && match repo.updateTodo(updated)
          case Success(_) =>
            && uiState == old(uiState).(todos := ReplaceById(old(uiState).todos, UiId, todoId, ToUiModel(updated)))
            && sideEffects == old(sideEffects) + [TodoStatusChanged(todoId, updated.completed)]
          case Failure(e) =>
            var message := MessageOr(e, UpdateFailedText);
            && uiState == old(uiState).(error := Some(message))
            && sideEffects == old(sideEffects) + [ShowError(message)]
    }

    /**
     * Deleting always asks the repository. On success the list keeps exactly
     * the items whose id differs, in order, and `TodoDeleted` carries the
     * title of the first item that had the id before the call, if there was
     * one. On failure the list stays, the error is set and `ShowError` sent.
     */
    twostate predicate DeleteDone(repo: TodoRepository, todoId: int)
      reads this
    {
      var deleted := FindById(old(uiState).todos, UiId, todoId);
      && repoCalls == old(repoCalls) + [DeleteCall(todoId)]
      && match repo.deleteTodo(todoId)
        case Success(_) =>
          && uiState == old(uiState).(todos := RemoveById(old(uiState).todos, UiId, todoId))
          && stateWrites == old(stateWrites) + [uiState]
          && sideEffects == old(sideEffects) + (if deleted.Some? then [TodoDeleted(deleted.value.title)] else [])
        case Failure(e) =>
          var message := MessageOr(e, DeleteFailedText);
          && uiState == old(uiState).(error := Some(message))
          && stateWrites == old(stateWrites) + [uiState]
          && sideEffects == old(sideEffects) + [ShowError(message)]
    }

    /** Clearing the error touches nothing else and calls nobody. */
    twostate predicate ClearErrorDone()
      reads this
    {
      && uiState == old(uiState).(error := None)
      && stateWrites == old(stateWrites) + [uiState]
      && sideEffects == old(sideEffects)
      && repoCalls == old(repoCalls)
    }

    method HandleAction(action: TodoAction, repo: TodoRepository)
      requires Valid()
      modifies this
      ensures Valid()
      ensures action.LoadTodos? ==> LoadDone(repo)
      ensures action.ToggleTodoComplete? ==> ToggleDone(repo, action.todoId)
      ensures action.DeleteTodo? ==> DeleteDone(repo, action.todoId)
      ensures action.ClearError? ==> ClearErrorDone()
    {
      match action
      case LoadTodos => LoadTodos(repo);
      case ToggleTodoComplete(todoId) => ToggleTodoComplete(repo, todoId);
      case DeleteTodo(todoId) => DeleteTodo(repo, todoId);
      case ClearError => ClearError();
    }

    method LoadTodos(repo: TodoRepository)
      requires Valid()
      modifies this
      ensures Valid() && LoadDone(repo)
    {
      SetState(uiState.(isLoading := true));
      repoCalls := repoCalls + [ListCall];
      match repo.getTodoList()
      case Success(todos) =>
        SetState(uiState.(todos := MapSeq(todos, ToUiModel), isLoading := false, error := None));
        sideEffects := sideEffects + [TodosLoaded];
      case Failure(e) =>
        var message := MessageOr(e, LoadFailedText);
        SetState(uiState.(isLoading := false, error := Some(message)));
        sideEffects := sideEffects + [ShowError(message)];
    }

    method ToggleTodoComplete(repo: TodoRepository, todoId: int)
      requires Valid()
      modifies this
      ensures Valid() && ToggleDone(repo, todoId)
      ensures |uiState.todos| == |old(uiState.todos)|
      ensures uiState.isLoading == old(uiState.isLoading)
      ensures (forall i :: 0 <= i < |old(uiState.todos)| ==> old(uiState.todos)[i].id != todoId) ==>
                uiState.todos == old(uiState.todos)
    {
      repoCalls := repoCalls + [ByIdCall(todoId)];
      match repo.getTodoById(todoId)
      case Failure(e) =>
        var message := MessageOr(e, UpdateFailedText);
        SetState(uiState.(error := Some(message)));
        sideEffects := sideEffects + [ShowError(message)];
      case Success(server) =>
        var updated := server.(completed := !server.completed);
        repoCalls := repoCalls + [UpdateCall(updated)];
        match repo.updateTodo(updated)
        case Success(_) =>
          ReplaceByIdAbsent(uiState.todos, UiId, todoId, ToUiModel(updated));
          SetState(uiState.(todos := ReplaceById(uiState.todos, UiId, todoId, ToUiModel(updated))));
          sideEffects := sideEffects + [TodoStatusChanged(todoId, updated.completed)];
        case Failure(e) =>
          var message := MessageOr(e, UpdateFailedText);
          SetState(uiState.(error := Some(message)));
          sideEffects := sideEffects + [ShowError(message)];
    }

    method DeleteTodo(repo: TodoRepository, todoId: int)
      requires Valid()
      modifies this
      ensures Valid() && DeleteDone(repo, todoId)
      ensures repo.deleteTodo(todoId).Success? ==>
                forall i :: 0 <= i < |uiState.todos| ==> uiState.todos[i].id != todoId
    {
      var deleted := FindById(uiState.todos, UiId, todoId);
      repoCalls := repoCalls + [DeleteCall(todoId)];
      match repo.deleteTodo(todoId)
      case Success(_) =>
        SetState(uiState.(todos := RemoveById(uiState.todos, UiId, todoId)));
        if deleted.Some? {
          sideEffects := sideEffects + [TodoDeleted(deleted.value.title)];
        }
      case Failure(e) =>
        var message := MessageOr(e, DeleteFailedText);
        SetState(uiState.(error := Some(message)));
        sideEffects := sideEffects + [ShowError(message)];
    }

    method ClearError()
      requires Valid()
      modifies this
      ensures Valid() && ClearErrorDone()
      ensures old(uiState.error).None? ==> uiState == old(uiState)
    {
      SetState(uiState.(error := None));
    }
  }
}
