/**
 * The domain-side `TodoRepository` interface the screen stores depend on.
 * A value of this type stands for the repository's answers while one store
 * action runs; `RepoCall` names one invocation, so that stores can log them.
 */
module Repository {
  import opened Entities
  import opened Results

  datatype TodoRepository = TodoRepository(
    getTodoList: () -> Result<seq<Todo>>,
    getTodoById: int -> Result<Todo>,
    createTodo: Todo -> Result<Todo>,
    updateTodo: Todo -> Result<Todo>,
    deleteTodo: int -> Result<()>)

  /** One invocation of the repository, with its argument. */
  datatype RepoCall =
    | ListCall
    | ByIdCall(id: int)
    | CreateCall(todo: Todo)
    | UpdateCall(todo: Todo)
    | DeleteCall(todoId: int)
}
