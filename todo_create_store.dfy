/**
 * The create screen's state store (`TodoCreateViewModel`): a draft title
 * edited verbatim, validated as non-blank before anything is sent.
 */
module TodoCreateStore {
  import opened Wrappers
  import opened Results
  import opened Entities
  import opened Text
  import opened Repository

  datatype TodoCreateUiState = TodoCreateUiState(title: string, isCreating: bool, error: Option<string>)

  datatype TodoCreateAction = UpdateTitle(title: string) | CreateTodo

  datatype TodoCreateSideEffect = CreateSuccess

  const InitialState := TodoCreateUiState("", false, None)
  const BlankTitleText := "제목을 입력해주세요"
  const CreateFailedText := "할일 생성에 실패했습니다"

  /** The draft the store sends for a title: no id, no owner, not completed, title trimmed. */
  function Draft(title: string): Todo {
    Todo(userId := 0, id := 0, title := Trim(title), completed := false)
  }

  /** Non-empty, and neither starting nor ending with whitespace. */
  predicate IsTrimmedTitle(s: string) {
    s != [] && !IsWhitespace(s[0]) && !IsWhitespace(s[|s| - 1])
  }

  /** What every create request sent by this store looks like. */
  predicate IsSentDraft(c: RepoCall) {
    && c.CreateCall?
    && c.todo.id == 0 && c.todo.userId == 0 && !c.todo.completed
    && IsTrimmedTitle(c.todo.title)
  }

  /**
   * A draft built from a title that is not blank is a well-formed create
   * request, and its title is a fixed point of trimming.
   */
  lemma DraftIsWellFormed(title: string)
    requires !IsBlank(title)
    ensures IsSentDraft(CreateCall(Draft(title)))
    ensures Trim(Draft(title).title) == Draft(title).title
  {
    TrimIdempotent(title);
  }

  class TodoCreateViewModel {
    var uiState: TodoCreateUiState
    var sideEffects: seq<TodoCreateSideEffect>
    var repoCalls: seq<RepoCall>
    ghost var stateWrites: seq<TodoCreateUiState>

    /**
     * The current state is the last one written; the store has only ever
     * sent non-blank, trimmed, unnumbered, uncompleted drafts; there are
     * no more side effects than repository calls.
     */
    ghost predicate Valid()
      reads this
    {
      && |stateWrites| > 0
      && stateWrites[|stateWrites| - 1] == uiState
      && (forall i :: 0 <= i < |repoCalls| ==> IsSentDraft(repoCalls[i]))
      && |sideEffects| <= |repoCalls|
    }

    constructor ()
      ensures Valid()
      ensures uiState == InitialState && stateWrites == [InitialState]
      ensures sideEffects == [] && repoCalls == []
    {
      uiState := InitialState;
      sideEffects := [];
      repoCalls := [];
      stateWrites := [InitialState];
    }

    method SetState(s: TodoCreateUiState)
      modifies this
      ensures uiState == s && stateWrites == old(stateWrites) + [s]
      ensures sideEffects == old(sideEffects) && repoCalls == old(repoCalls)
    {
      uiState := s;
      stateWrites := stateWrites + [s];
    }

    /** The title is stored exactly as typed; nothing else changes. */
    twostate predicate UpdateTitleDone(title: string)
      reads this
    {
      && uiState == old(uiState).(title := title)
      && stateWrites == old(stateWrites) + [uiState]
      && sideEffects == old(sideEffects)
      && repoCalls == old(repoCalls)
    }

    /**
     * A title blank after trimming: the fixed error, no call, title and
     * `isCreating` untouched. Otherwise a write with `isCreating` set and a
     * create of the trimmed draft; success sends exactly one `CreateSuccess`
     * and leaves `isCreating` set with no new error; failure clears
     * `isCreating` and sets the message (or fallback). The stored title never
     * changes: the trimmed text goes only into the request.
     */
    twostate predicate CreateTodoDone(repo: TodoRepository)
      reads this
    {
      && uiState.title == old(uiState).title
      && if IsBlank(old(uiState).title) then
        && uiState == old(uiState).(error := Some(BlankTitleText))
        && stateWrites == old(stateWrites) + [uiState]
        && sideEffects == old(sideEffects)
        && repoCalls == old(repoCalls)
      else
        var creating := old(uiState).(isCreating := true);
        var draft := Draft(old(uiState).title);
        && repoCalls == old(repoCalls) + [CreateCall(draft)]
        && match repo.createTodo(draft)
          case Success(_) =>
            && uiState == creating
            && stateWrites == old(stateWrites) + [creating]
            && sideEffects == old(sideEffects) + [CreateSuccess]
          case Failure(e) =>
            && uiState == creating.(isCreating := false, error := Some(MessageOr(e, CreateFailedText)))
            && stateWrites == old(stateWrites) + [creating, uiState]
            && sideEffects == old(sideEffects)
    }

    method HandleAction(action: TodoCreateAction, repo: TodoRepository)
      requires Valid()
      modifies this
      ensures Valid()
      ensures action.UpdateTitle? ==> UpdateTitleDone(action.title)
      ensures action.CreateTodo? ==> CreateTodoDone(repo)
    {
      match action
      case CreateTodo => CreateTodo(repo);
      case UpdateTitle(title) => UpdateTitle(title);
    }

    /** Logs a create request; only well-formed drafts are ever sent. */
    method SendDraft(draft: Todo)
      requires Valid() && IsSentDraft(CreateCall(draft))
      modifies this
      ensures Valid()
      ensures repoCalls == old(repoCalls) + [CreateCall(draft)]
      ensures uiState == old(uiState) && stateWrites == old(stateWrites) && sideEffects == old(sideEffects)
    {
      repoCalls := repoCalls + [CreateCall(draft)];
    }

    method UpdateTitle(title: string)
      requires Valid()
      modifies this
      ensures Valid() && UpdateTitleDone(title)
    {
      SetState(uiState.(title := title));
    }

    method CreateTodo(repo: TodoRepository)
      requires Valid()
      modifies this
      ensures Valid() && CreateTodoDone(repo)
    {
      var title := Trim(uiState.title);
      if title == [] {
        SetState(uiState.(error := Some(BlankTitleText)));
        return;
      }
      SetState(uiState.(isCreating := true));
      var newTodo := Todo(userId := 0, id := 0, title := title, completed := false);
      DraftIsWellFormed(uiState.title);
      SendDraft(newTodo);
      match repo.createTodo(newTodo)
      case Success(_) =>
        sideEffects := sideEffects + [CreateSuccess];
      case Failure(e) =>
        SetState(uiState.(isCreating := false, error := Some(MessageOr(e, CreateFailedText))));
    }

    method ClearError()
      requires Valid()
      modifies this
      ensures Valid()
      ensures uiState == old(uiState).(error := None)
      ensures old(uiState.error).None? ==> uiState == old(uiState)
      ensures stateWrites == old(stateWrites) + [uiState]
      ensures sideEffects == old(sideEffects) && repoCalls == old(repoCalls)
    {
      SetState(uiState.(error := None));
    }
  }

  /**
   * Typing a blank title and submitting it reaches the repository zero times
   * and leaves an error to show, whatever the repository would have answered.
   */
  method BlankTitleMakesNoCall(repo: TodoRepository, blank: string) returns (vm: TodoCreateViewModel)
    requires IsBlank(blank)
    ensures vm.repoCalls == [] && vm.sideEffects == []
    ensures vm.uiState == TodoCreateUiState(blank, false, Some(BlankTitleText))
  {
    vm := new TodoCreateViewModel();
    vm.HandleAction(UpdateTitle(blank), repo);
    vm.HandleAction(CreateTodo, repo);
  }
}
