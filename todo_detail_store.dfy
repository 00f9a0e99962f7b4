/**
 * The detail screen's state store (`TodoDetailViewModel`), bound for its
 * whole life to the `todoId` it was opened with.
 */
module TodoDetailStore {
  import opened Wrappers
  import opened Results
  import opened Entities
  import opened TodoMapper
  import opened Repository

  datatype TodoDetailUiState = TodoDetailUiState(
    todo: Option<TodoUiModel>, isLoading: bool, isDeleting: bool, error: Option<string>)

  datatype TodoDetailAction = LoadDetail | DeleteDetail | ToggleComplete | ClearError

  datatype TodoDetailSideEffect = DeleteSuccess

  const InitialState := TodoDetailUiState(None, false, false, None)
  const LoadFailedText := "할일을 불러오는데 실패했습니다"
  const FetchFailedText := "할일 정보를 가져오는데 실패했습니다"
  const UpdateFailedText := "할일 업데이트에 실패했습니다"
  const DeleteFailedText := "할일 삭제에 실패했습니다"

  class TodoDetailViewModel {
    /** The navigation argument; never changes. */
    const todoId: int
    var uiState: TodoDetailUiState
    var sideEffects: seq<TodoDetailSideEffect>
    var repoCalls: seq<RepoCall>
    ghost var stateWrites: seq<TodoDetailUiState>

    /**
     * The current state is the last one written; every delete ever sent
     * targets `todoId`; there are no more side effects than repository calls.
     */
    ghost predicate Valid()
      reads this
    {
      && |stateWrites| > 0
      && stateWrites[|stateWrites| - 1] == uiState
      && (forall i :: 0 <= i < |repoCalls| && repoCalls[i].DeleteCall? ==> repoCalls[i].todoId == todoId)
      && |sideEffects| <= |repoCalls|
    }

    /** Construction fixes `todoId` and immediately loads it. */
    constructor (todoId: int, repo: TodoRepository)
      ensures Valid() && this.todoId == todoId
      ensures stateWrites[0] == InitialState
      ensures repoCalls == [ByIdCall(todoId)] && sideEffects == []
      ensures match repo.getTodoById(todoId)
        case Success(t) => uiState == TodoDetailUiState(Some(ToUiModel(t)), false, false, None)
        case Failure(e) => uiState == TodoDetailUiState(None, false, false, Some(MessageOr(e, LoadFailedText)))
    {
      this.todoId := todoId;
      uiState := InitialState;
      sideEffects := [];
      repoCalls := [];
      stateWrites := [InitialState];
      new;
      LoadTodoDetail(repo);
    }

    method SetState(s: TodoDetailUiState)
      modifies this
      ensures uiState == s && stateWrites == old(stateWrites) + [s]
      ensures sideEffects == old(sideEffects) && repoCalls == old(repoCalls)
    {
      uiState := s;
      stateWrites := stateWrites + [s];
    }

    /**
     * Fetches `todoId` after a write with `isLoading` set. Success shows the
     * fetched todo as a UI model, not loading, no error; failure keeps any
     * todo shown before, not loading, with the message (or fallback) as error.
     */
    twostate predicate LoadDone(repo: TodoRepository)
      reads this
    {
      var loading := old(uiState).(isLoading := true);
      && repoCalls == old(repoCalls) + [ByIdCall(todoId)]
      && stateWrites == old(stateWrites) + [loading, uiState]
      && sideEffects == old(sideEffects)
      && match repo.getTodoById(todoId)
        case Success(t) => uiState == loading.(todo := Some(ToUiModel(t)), isLoading := false, error := None)
        case Failure(e) => uiState == loading.(isLoading := false, error := Some(MessageOr(e, LoadFailedText)))
    }

    /**
     * Nothing shown: no call, no write. Otherwise re-fetch the shown todo's
     * id; if that fails, the fixed fetch-failure text is the error whatever
     * the exception. If it succeeds, update the server copy with `completed`
     * flipped; success shows the local todo (same id and title) with the
     * flipped server flag; failure sets the message (or fallback) as error.
     * The shown todo never changes on a failure.
     */
    twostate predicate ToggleDone(repo: TodoRepository)
      reads this
    {
      && sideEffects == old(sideEffects)
      && match old(uiState).todo
        case None =>
          && uiState == old(uiState) && repoCalls == old(repoCalls) && stateWrites == old(stateWrites)
        case Some(current) =>
          && stateWrites == old(stateWrites) + [uiState]
          && match repo.getTodoById(current.id)
            case Failure(_) =>
              && repoCalls == old(repoCalls) + [ByIdCall(current.id)]
              && uiState == old(uiState).(error := Some(FetchFailedText))
            case Success(original) =>
              var updated := original.(completed := !original.completed);
              && repoCalls == old(repoCalls) + [ByIdCall(current.id), UpdateCall(updated)]
              && match repo.updateTodo(updated)
                case Success(_) =>
                  uiState == old(uiState).(todo := Some(current.(completed := !original.completed)))
                case Failure(e) =>
                  uiState == old(uiState).(error := Some(MessageOr(e, UpdateFailedText)))
    }

    /**
     * A write with `isDeleting` set, then a delete of `todoId`. Success sends
     * exactly one `DeleteSuccess` and leaves `isDeleting` set; failure clears
     * `isDeleting` and sets the message (or fallback) as error.
     */
    twostate predicate DeleteDone(repo: TodoRepository)
      reads this
    {
      var deleting := old(uiState).(isDeleting := true);
      && repoCalls == old(repoCalls) + [DeleteCall(todoId)]
      && match repo.deleteTodo(todoId)
        case Success(_) =>
          && uiState == deleting
          && stateWrites == old(stateWrites) + [deleting]
          && sideEffects == old(sideEffects) + [DeleteSuccess]
        case Failure(e) =>
          && uiState == deleting.(isDeleting := false, error := Some(MessageOr(e, DeleteFailedText)))
          && stateWrites == old(stateWrites) + [deleting, uiState]
          && sideEffects == old(sideEffects)
    }

    twostate predicate ClearErrorDone()
      reads this
    {
      && uiState == old(uiState).(error := None)
      && stateWrites == old(stateWrites) + [uiState]
      && sideEffects == old(sideEffects)
      && repoCalls == old(repoCalls)
    }

    method HandleAction(action: TodoDetailAction, repo: TodoRepository)
      requires Valid()
      modifies this
      ensures Valid()
      ensures action.LoadDetail? ==> LoadDone(repo)
      ensures action.DeleteDetail? ==> DeleteDone(repo)
      ensures action.ToggleComplete? ==> ToggleDone(repo)
      ensures action.ClearError? ==> ClearErrorDone()
    {
      match action
      case DeleteDetail => DeleteTodo(repo);
      case LoadDetail => LoadTodoDetail(repo);
      case ToggleComplete => ToggleComplete(repo);
      case ClearError => ClearError();
    }

    method LoadTodoDetail(repo: TodoRepository)
      requires Valid()
      modifies this
      ensures Valid() && LoadDone(repo)
    {
      SetState(uiState.(isLoading := true));
      repoCalls := repoCalls + [ByIdCall(todoId)];
      match repo.getTodoById(todoId)
      case Success(t) =>
        SetState(uiState.(todo := Some(ToUiModel(t)), isLoading := false, error := None));
      case Failure(e) =>
        SetState(uiState.(isLoading := false, error := Some(MessageOr(e, LoadFailedText))));
    }

    method ToggleComplete(repo: TodoRepository)
      requires Valid()
      modifies this
      ensures Valid() && ToggleDone(repo)
      ensures uiState.isLoading == old(uiState.isLoading) && uiState.isDeleting == old(uiState.isDeleting)
    {
      if uiState.todo.None? {
        return;
      }
      var current := uiState.todo.value;
      repoCalls := repoCalls + [ByIdCall(current.id)];
      match repo.getTodoById(current.id)
      case Failure(_) =>
        SetState(uiState.(error := Some(FetchFailedText)));
      case Success(original) =>
        var updated := original.(completed := !original.completed);
        repoCalls := repoCalls + [UpdateCall(updated)];
        match repo.updateTodo(updated)
        case Success(_) =>
          SetState(uiState.(todo := Some(current.(completed := updated.completed))));
        case Failure(e) =>
          SetState(uiState.(error := Some(MessageOr(e, UpdateFailedText))));
    }

    method DeleteTodo(repo: TodoRepository)
      requires Valid()
      modifies this
      ensures Valid() && DeleteDone(repo)
    {
      SetState(uiState.(isDeleting := true));
      repoCalls := repoCalls + [DeleteCall(todoId)];
      match repo.deleteTodo(todoId)
      case Success(_) =>
        sideEffects := sideEffects + [DeleteSuccess];
      case Failure(e) =>
        SetState(uiState.(isDeleting := false, error := Some(MessageOr(e, DeleteFailedText))));
    }

    method ClearError()
      requires Valid()
      modifies this
      ensures Valid() && ClearErrorDone()
      ensures old(uiState.error).None? ==> uiState == old(uiState)
    {
      SetState(uiState.(error := None));
    }
  }
}
