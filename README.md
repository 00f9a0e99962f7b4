# TossPractice todo client: a verified model of its data and state layers

TossPractice is a small Android todo client. Its screens talk to a REST todo
service through a repository. This project models in Dafny the layer between
the HTTP interface and the screens, and proves what each part promises:

- **`executeApiCall`** (module `NetworkExtensions`) turns the outcome of one
  API call into exactly one Kotlin `Result`. The outcome is either a Retrofit
  response (status, optional body, optional error body) or an exception with
  an optional message. The result is one of:
  - a success carrying the body;
  - `EmptyBodyError`;
  - `NetworkError(code, errorBody)`;
  - `UnknownError(message or "Unknown error")`.
- **The `TodoException` taxonomy** (module `TodoExceptions`): the ten sealed
  variants and the user-visible `message` of each. The `$code` interpolation
  is modelled by an explicit decimal rendering (module `Decimal`). A
  classifier reads a message back to its kind; it shows that each message
  still identifies its variant, and that a network error message names its
  status code.
- **`TodoRepositoryImpl`** (module `RepositoryImpl`): the five repository
  operations, each a `Result.map` over the normaliser. The Retrofit service
  is an oracle datatype of five functions from request to call outcome.
- **The mappers** (modules `Mapper`, `TodoMapper`): field-copying conversions
  between `TodoResponse`, `TodoRequest`, `Todo` and `TodoUiModel`, with their
  round trips.
- **The four screen stores**. Each is a class whose fields are:
  - the current UI state record;
  - the side effects sent so far, as an append-only sequence;
  - the repository calls made so far (`repoCalls`), so that "no repository
    call" can be stated;
  - a ghost log of every state written, so that "`isLoading` is set first" can
    be stated.

  The repository's answers for one action are a parameter
  (`Repository.TodoRepository`, one function per operation). Each action runs
  to completion before the next one starts. The stores are:
  - `TodoListStore`: the main list screen;
  - `LegacyTodoStore`: the older list screen, which keeps domain todos and has
    no side effects;
  - `TodoDetailStore`: the detail screen;
  - `TodoCreateStore`: the create screen, with blank-title validation through
    a model of Kotlin's `trim()` (module `Text`).

The list rewrites the stores perform (`map`, `filter { id != x }`,
`find { id == x }`, replace-by-id) are pure functions in module `ListOps`.
Their lemmas relate them to each other.

Every failure `executeApiCall` builds for a non-2xx status is a
`NetworkError` carrying that exact status. The code has no per-status
mapping: a 401, 404 or 5xx never becomes `UnauthorizedError`,
`NotFoundError` or `ServerError`. The model follows the code here
(`OnlyThreeFailureKinds`, `NotFoundIsNetworkError`), even though the
exception file's own comments label those variants "HTTP 401", "HTTP 404"
and "HTTP 5xx" (TodoException.kt:10-38). The other seven variants are
modelled with their messages, but nothing in the core builds them.

## Model

| member | source | states |
|---|---|---|
| `NetworkExtensions.ExecuteApiCall` | app/src/main/java/com/pardess/toss/data/util/NetworkExtensions.kt:8-33 | Success iff the response is 2xx with a body, and then the body is returned unchanged. A 2xx without a body gives EmptyBodyError. Any other status gives NetworkError with that exact code and error body. A throw gives UnknownError with its message or "Unknown error". Every failure is a TodoException. |
| `NetworkExtensions.OnlyThreeFailureKinds` | app/src/main/java/com/pardess/toss/data/util/NetworkExtensions.kt:14-31 | Whatever the outcome, a failure is EmptyBody, Network or Unknown, never a per-status variant. |
| `NetworkExtensions.UnsuccessfulStatusNamedInMessage` | app/src/main/java/com/pardess/toss/data/util/NetworkExtensions.kt:20-27 | For any non-2xx status, the resulting message classifies as a network error, and the status read back from it is that status. |
| `NetworkExtensions.FailuresCarryMessages` | app/src/main/java/com/pardess/toss/data/util/NetworkExtensions.kt:12-31 | Every failure the normaliser produces has a non-null message. |
| `TodoExceptions.Message` | app/src/main/java/com/pardess/toss/domain/exception/TodoException.kt:4-52 | UnknownError's message is exactly its argument; every other variant's message is non-empty. Validation, Server and Connection messages are their fixed prefix followed by the detail, or by "Invalid input", "Internal server error" or "Check your internet connection" when it is null. A network message is "Network error (", the decimal code, "): ", then the error body or "Unknown error" when it is null. |
| `TodoExceptions.ClassifyMessageRecoversKind` | app/src/main/java/com/pardess/toss/domain/exception/TodoException.kt:4-52 | For every variant except UnknownError, the kind read back from the message is the kind the exception was built with. The fixed texts and prefixes therefore never collide. |
| `TodoExceptions.NetworkErrorMessageNamesCode` | app/src/main/java/com/pardess/toss/domain/exception/TodoException.kt:41-43 | "Network error (code): ..." read back gives the exact code, negative codes included. |
| `TodoExceptions.NetworkErrorMessageInjectiveOnCode` | app/src/main/java/com/pardess/toss/domain/exception/TodoException.kt:41-43 | Two network errors with the same message have the same status code. |
| `TodoExceptions.NullPayloadIndistinguishable` | app/src/main/java/com/pardess/toss/domain/exception/TodoException.kt:26-48 | A null payload and the literal default text give the same message (Network, Validation, Server, Connection). |
| `Decimal.IntToString` | app/src/main/java/com/pardess/toss/domain/exception/TodoException.kt:41-43 | The rendering of an Int is canonical: non-empty, no ')', a leading '-' exactly for negative numbers, digits otherwise, no leading zero, "0" for zero and never "-0". |
| `Decimal.IntToStringRoundTrip` | app/src/main/java/com/pardess/toss/domain/exception/TodoException.kt:41-43 | Parsing the decimal rendering of any Int gives back that Int. |
| `Results.Result.Map` | app/src/main/java/com/pardess/toss/data/repository/TodoRepositoryImpl.kt:16-40 | `Result.map`: success exactly when the input is a success, with the function applied to its value; a failure passes on its exception unchanged. |
| `Results.MessageOf` | app/src/main/java/com/pardess/toss/domain/exception/TodoException.kt:4-52 | A TodoException's `message` is never null and is its variant's message. Any other throwable's message is passed on as is. |
| `Results.MessageOr` | app/src/main/java/com/pardess/toss/feature/todo/main/TodoViewModel.kt:61 | `exception.message ?: fallback`: the message when there is one, otherwise the fallback. |
| `Results.TodoErrorNeverFallsBack` | app/src/main/java/com/pardess/toss/feature/todo/main/TodoViewModel.kt:59-69 | For the app's own exceptions the store's fallback text is never chosen. |
| `Mapper.ToModel` | app/src/main/java/com/pardess/toss/data/mapper/Mapper.kt:7-12 | Copies userId, id, title and completed unchanged. |
| `Mapper.ToRequest` | app/src/main/java/com/pardess/toss/data/mapper/Mapper.kt:14-19 | Copies all four fields unchanged. |
| `Mapper.RequestEchoRoundTrip` | app/src/main/java/com/pardess/toss/data/mapper/Mapper.kt:7-19 | A response echoing `toRequest(t)`, read back by `toModel`, is `t`. |
| `Mapper.ToRequestInjective` | app/src/main/java/com/pardess/toss/data/mapper/Mapper.kt:14-19 | Distinct todos give distinct request bodies. |
| `TodoMapper.ToUiModel` | app/src/main/java/com/pardess/toss/feature/todo/model/TodoMapper.kt:5-9 | Keeps id, title and completed. |
| `TodoMapper.ToDomainModel` | app/src/main/java/com/pardess/toss/feature/todo/model/TodoMapper.kt:11-18 | The owner is the given userId. The other three fields are copied. |
| `TodoMapper.UiModelRoundTrip` | app/src/main/java/com/pardess/toss/feature/todo/model/TodoMapper.kt:5-18 | `toDomainModel(m, u).toUiModel() == m` for every owner `u`. |
| `TodoMapper.DomainRoundTrip` | app/src/main/java/com/pardess/toss/feature/todo/model/TodoMapper.kt:5-18 | `t.toUiModel().toDomainModel(t.userId) == t`. |
| `TodoMapper.ToUiModelForgetsOnlyOwner` | app/src/main/java/com/pardess/toss/feature/todo/model/TodoMapper.kt:5-9 | Two todos have equal UI models iff they differ at most in userId. |
| `RepositoryImpl.GetTodoList` | app/src/main/java/com/pardess/toss/data/repository/TodoRepositoryImpl.kt:16-22 | A failure is the normaliser's failure unchanged. A success is the response list mapped by `toModel`, with the same length and order. |
| `RepositoryImpl.GetTodoById` | app/src/main/java/com/pardess/toss/data/repository/TodoRepositoryImpl.kt:24-28 | The API is asked for exactly `id`. A failure is passed on unchanged, and a success is the response mapped by `toModel`. |
| `RepositoryImpl.CreateTodo` | app/src/main/java/com/pardess/toss/data/repository/TodoRepositoryImpl.kt:30-34 | The API receives `toRequest(todo)`. A failure is passed on unchanged, and a success is the server's copy mapped by `toModel`. |
| `RepositoryImpl.UpdateTodo` | app/src/main/java/com/pardess/toss/data/repository/TodoRepositoryImpl.kt:36-40 | The API receives `todo.id` as the path id and `toRequest(todo)` as the body. A failure is passed on unchanged, and a success is mapped. |
| `RepositoryImpl.DeleteTodo` | app/src/main/java/com/pardess/toss/data/repository/TodoRepositoryImpl.kt:42-46 | The delete targets exactly `todoId`. It succeeds iff that call answered 2xx with a body. A failure is the normaliser's failure unchanged. |
| `RepositoryImpl.UpdateEchoRoundTrip` | app/src/main/java/com/pardess/toss/data/repository/TodoRepositoryImpl.kt:36-40 | Against a server that echoes the request body with a 2xx, an update returns exactly the todo sent. |
| `RepositoryImpl.NotFoundIsNetworkError` | app/src/main/java/com/pardess/toss/data/repository/TodoRepositoryImpl.kt:24-28 | A 404 on a fetch surfaces as `NetworkError(404, errorBody)`, not as NotFoundError. |
| `RepositoryImpl.DeleteWithoutBodyFails` | app/src/main/java/com/pardess/toss/data/repository/TodoRepositoryImpl.kt:42-46 | A 2xx delete response without a body (such as a 204) is reported as EmptyBodyError. |
| `RepositoryImpl.ImplFailuresCarryMessages` | app/src/main/java/com/pardess/toss/data/repository/TodoRepositoryImpl.kt:16-46 | Every failure of all five operations has a non-null message, so stores wired to this implementation never show their own fallback. |
| `ListOps.MapSeq` | app/src/main/java/com/pardess/toss/feature/todo/main/TodoViewModel.kt:52 | `list.map(f)`: same length, and element i is `f` of element i. |
| `ListOps.ReplaceById` | app/src/main/java/com/pardess/toss/feature/todo/main/TodoViewModel.kt:83-85 | Same length. Exactly the items with the id become the replacement, and every other item is unchanged in place. |
| `ListOps.RemoveById` | app/src/main/java/com/pardess/toss/feature/todo/main/TodoViewModel.kt:122 | The length drops by the number of items with the id, and no survivor has it. Every item without the id survives, and nothing new appears. |
| `ListOps.FindById` | app/src/main/java/com/pardess/toss/feature/todo/main/TodoViewModel.kt:116 | None iff no item has the id. Otherwise it returns the first item that has it. |
| `ListOps.RemoveByIdConcat` | app/src/main/java/com/pardess/toss/feature/todo/main/TodoViewModel.kt:122 | Filtering distributes over concatenation, so survivors keep their relative order. |
| `ListOps.RemoveByIdAbsent` | app/src/main/java/com/pardess/toss/feature/todo/TodoViewModel.kt:76 | Removing an id the list does not hold leaves the list unchanged. |
| `ListOps.RemoveByIdIdempotent` | app/src/main/java/com/pardess/toss/feature/todo/main/TodoViewModel.kt:122 | Removing the same id twice is the same as removing it once. |
| `ListOps.FindNoneIffRemoveKeepsAll` | app/src/main/java/com/pardess/toss/feature/todo/main/TodoViewModel.kt:116-124 | `find` is empty exactly when `filter` keeps the whole list, so no `TodoDeleted` is sent exactly when the delete leaves the list as it was. |
| `ListOps.ReplaceByIdAbsent` | app/src/main/java/com/pardess/toss/feature/todo/main/TodoViewModel.kt:83-85 | Replacing an id the list does not hold leaves the list unchanged. |
| `ListOps.RemoveAfterReplace` | app/src/main/java/com/pardess/toss/feature/todo/main/TodoViewModel.kt:73-124 | When the replacement carries the id it replaces (`idOf(x) == id`), replacing and then deleting that id leaves the same list as deleting it alone. In the main list store this holds when the server's updated copy has the id that was toggled. |
| `Text.Trim` | app/src/main/java/com/pardess/toss/feature/todo/create/TodoCreateViewModel.kt:47 | `trim()` is empty iff the input is blank under the JVM's whitespace set. Otherwise it neither starts nor ends with whitespace. |
| `Text.TrimIsInnerSlice` | app/src/main/java/com/pardess/toss/feature/todo/create/TodoCreateViewModel.kt:47 | `trim()` returns the contiguous slice of the input that starts right after the leading whitespace. |
| `Text.TrimDropsOnlyWhitespace` | app/src/main/java/com/pardess/toss/feature/todo/create/TodoCreateViewModel.kt:47 | Everything after the kept slice is whitespace. |
| `Text.TrimIdempotent` | app/src/main/java/com/pardess/toss/feature/todo/create/TodoCreateViewModel.kt:47 | Trimming twice is the same as trimming once. |
| `TodoListStore.TodoViewModel.constructor` | app/src/main/java/com/pardess/toss/feature/todo/main/TodoViewModel.kt:25-33 | Starts from the default state and loads at once. It makes exactly one list call and ends with the loaded list or the error, plus the matching side effect. |
| `TodoListStore.TodoViewModel.HandleAction` | app/src/main/java/com/pardess/toss/feature/todo/main/TodoViewModel.kt:35-42 | Each action has exactly the effect of its handler. |
| `TodoListStore.TodoViewModel.LoadTodos` | app/src/main/java/com/pardess/toss/feature/todo/main/TodoViewModel.kt:44-71 | Writes `isLoading = true` first. On success the list becomes the result mapped by `toUiModel` (same length and order), with no error, and `TodosLoaded` is sent. On failure the list is kept, the message (or fallback) becomes the error, and `ShowError` is sent with that same text. Both end not loading. |
| `TodoListStore.TodoViewModel.ToggleTodoComplete` | app/src/main/java/com/pardess/toss/feature/todo/main/TodoViewModel.kt:73-112 | Always fetches `todoId`, then updates the server copy with `completed` flipped. Only if both succeed do exactly the items with `todoId` become that flipped copy, with the same length, and `TodoStatusChanged(todoId, flipped)` is sent. If the id is absent, the list stays as it was. If either call fails, the list is untouched, the error is set and `ShowError` is sent. `isLoading` never changes. |
| `TodoListStore.TodoViewModel.DeleteTodo` | app/src/main/java/com/pardess/toss/feature/todo/main/TodoViewModel.kt:114-138 | Always calls delete. On success the list is filtered by `id != todoId` with order kept, and no item with the id remains. `TodoDeleted` carries the title of the first such item in the snapshot taken before the call, and is sent only if there was one. On failure the list is kept, the error is set and `ShowError` is sent. |
| `TodoListStore.TodoViewModel.ClearError` | app/src/main/java/com/pardess/toss/feature/todo/main/TodoViewModel.kt:140-142 | Only the error becomes null. It makes no call and sends no effect, and is a no-op when there is no error. |
| `LegacyTodoStore.TodoViewModel.constructor` | app/src/main/java/com/pardess/toss/feature/todo/TodoViewModel.kt:21-26 | Starts from the default state and loads at once, with exactly one list call. |
| `LegacyTodoStore.TodoViewModel.LoadTodos` | app/src/main/java/com/pardess/toss/feature/todo/TodoViewModel.kt:28-48 | Writes `isLoading = true` first. Success replaces the list and clears the error. Failure keeps the list and sets the message (or fallback). Both end not loading. |
| `LegacyTodoStore.TodoViewModel.ToggleTodoComplete` | app/src/main/java/com/pardess/toss/feature/todo/TodoViewModel.kt:50-70 | An absent id makes no call and no write. Otherwise the update sends the first local item with that id, with only `completed` negated. Success puts that copy in place of every item with the id (same length, others unchanged). Failure keeps the list and sets the error. |
| `LegacyTodoStore.TodoViewModel.DeleteTodo` | app/src/main/java/com/pardess/toss/feature/todo/TodoViewModel.kt:72-86 | Success keeps exactly the items whose id differs, in order. Failure keeps the list and sets the error. |
| `LegacyTodoStore.TodoViewModel.ClearError` | app/src/main/java/com/pardess/toss/feature/todo/TodoViewModel.kt:88-90 | Only the error becomes null, and it is a no-op when there is no error. |
| `TodoDetailStore.TodoDetailViewModel.constructor` | app/src/main/java/com/pardess/toss/feature/todo/detail/TodoDetailViewModel.kt:23-38 | Fixes `todoId` for the store's whole life and loads it at once. |
| `TodoDetailStore.TodoDetailViewModel.HandleAction` | app/src/main/java/com/pardess/toss/feature/todo/detail/TodoDetailViewModel.kt:40-58 | Each action has exactly the effect of its handler. Every delete ever sent targets the store's own `todoId`. |
| `TodoDetailStore.TodoDetailViewModel.LoadTodoDetail` | app/src/main/java/com/pardess/toss/feature/todo/detail/TodoDetailViewModel.kt:60-84 | Fetches the fixed `todoId` after writing `isLoading = true`. Success shows `toUiModel` of it, with no error. Failure keeps any todo shown before and sets the message (or fallback). Both end not loading. |
| `TodoDetailStore.TodoDetailViewModel.ToggleComplete` | app/src/main/java/com/pardess/toss/feature/todo/detail/TodoDetailViewModel.kt:86-116 | With nothing shown it makes no call and no write. A failed fetch sets the fixed fetch-failure text whatever the exception. A failed update sets the message (or fallback). Success shows the local todo (id and title kept) with the server flag negated. The shown todo never changes on failure, and `isLoading` and `isDeleting` never change. |
| `TodoDetailStore.TodoDetailViewModel.DeleteTodo` | app/src/main/java/com/pardess/toss/feature/todo/detail/TodoDetailViewModel.kt:118-136 | Writes `isDeleting = true`, then deletes `todoId`. Success sends exactly one `DeleteSuccess` and leaves `isDeleting` set. Failure clears `isDeleting` and sets the error. |
| `TodoDetailStore.TodoDetailViewModel.ClearError` | app/src/main/java/com/pardess/toss/feature/todo/detail/TodoDetailViewModel.kt:138-140 | Only the error becomes null, and it is a no-op when there is no error. |
| `TodoCreateStore.DraftIsWellFormed` | app/src/main/java/com/pardess/toss/feature/todo/create/TodoCreateViewModel.kt:47-62 | For a title that is not blank, the draft has id 0, owner 0 and is not completed. Its title is non-empty, has no surrounding whitespace and is a fixed point of `trim()`. |
| `TodoCreateStore.TodoCreateViewModel.constructor` | app/src/main/java/com/pardess/toss/feature/todo/create/TodoCreateViewModel.kt:19-28 | Starts from the default state, with no call and no effect. |
| `TodoCreateStore.TodoCreateViewModel.HandleAction` | app/src/main/java/com/pardess/toss/feature/todo/create/TodoCreateViewModel.kt:30-40 | `UpdateTitle(t)` behaves as `updateTitle(t)`, and `CreateTodo` as `createTodo`. Every create ever sent is a well-formed draft. |
| `TodoCreateStore.TodoCreateViewModel.UpdateTitle` | app/src/main/java/com/pardess/toss/feature/todo/create/TodoCreateViewModel.kt:42-44 | Stores the title verbatim, without trimming. Nothing else changes. |
| `TodoCreateStore.TodoCreateViewModel.CreateTodo` | app/src/main/java/com/pardess/toss/feature/todo/create/TodoCreateViewModel.kt:46-78 | A title that is blank after trimming sets the fixed error, makes no call and leaves title and `isCreating` alone. Otherwise it writes `isCreating = true` and sends `Todo(id 0, trimmed title, not completed, owner 0)`. Success then sends exactly one `CreateSuccess`, leaves `isCreating` set and adds no error. Failure clears `isCreating` and sets the error. The stored title never changes. |
| `TodoCreateStore.TodoCreateViewModel.ClearError` | app/src/main/java/com/pardess/toss/feature/todo/create/TodoCreateViewModel.kt:80-82 | Only the error becomes null, and it is a no-op when there is no error. |
| `TodoCreateStore.BlankTitleMakesNoCall` | app/src/main/java/com/pardess/toss/feature/todo/create/TodoCreateViewModel.kt:42-52 | Typing any blank title and submitting it reaches the repository zero times and leaves the blank-title error to show, whatever the repository would answer. |

## Left out

- Coroutines are not modelled: `viewModelScope.launch`, `withContext(Dispatchers.IO)`, suspension and interleaving between actions in flight. Each action runs to completion, and the repository's answers for it are fixed for its duration.
- Cancellation: the `catch (e: Exception)` in `executeApiCall` also catches a cancellation. The model has a single "threw" outcome with an optional message, so cancellation is not distinguished.
- `StateFlow` conflation of equal consecutive values and `Channel` delivery are not modelled. Side effects are an append-only log, and every state write is recorded even if it equals the previous state.
- `Log.d` calls: logging only, with no effect on state.
- HTTP, Retrofit routing and JSON (de)serialisation of the DTOs (`TossApiService`, `NetworkModule`, `RepositoryModule`): the API is an oracle from request to call outcome, and `errorBody()?.string()` is given as an optional text.
- The Compose screens, navigation and activity wiring (the `*Screen.kt` files, `TodoNavHost`, `MainActivity`): presentation only.
- The detail store's `checkNotNull(savedStateHandle["todoId"])` crash when the navigation argument is missing: the model's constructor takes the id as a parameter.
- Kotlin `Int` is unbounded here. The core does no arithmetic on ids or codes; it only compares them, copies them and renders them in decimal.
- The Korean fallback texts are kept verbatim as string constants. Nothing depends on their content beyond equality.
- The create store's `clearError` is public but not reachable through its `handleAction`. It is modelled as a method of its own, and `HandleAction` has no case for it, as in the source.
- A delete answered by a `Response<Unit>` that has a 2xx status and no body (such as a 204) is a failure, because the normaliser treats every null body as EmptyBodyError. This is the code's behaviour, and the model keeps it.
- Per-status exception mapping (401 → UnauthorizedError, 404 → NotFoundError, 5xx → ServerError, ...): the comments on those variants name the statuses (TodoException.kt:10-38), but `executeApiCall` never builds them. The model follows the code.
- NetworkExtensions.ExecuteApiCall: an exception thrown by `errorBody()?.string()` while a non-2xx response is being read is caught by the same `catch` and becomes UnknownError. The model does not split that case out: it is the `Threw` outcome, and a `Responded` outcome always has its error body already read.
