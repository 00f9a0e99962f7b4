/** Conversions between the domain entity and the UI model. */
module TodoMapper {
  import opened Entities

  /** `Todo.toUiModel()`: keeps id, title and completion, drops the owner. */
  function ToUiModel(t: Todo): (u: TodoUiModel)
    ensures u.id == t.id && u.title == t.title && u.completed == t.completed
  {
    TodoUiModel(id := t.id, title := t.title, completed := t.completed)
  }

  /** `TodoUiModel.toDomainModel(userId)`: the owner comes from the caller. */
  function ToDomainModel(u: TodoUiModel, userId: int): (t: Todo)
    ensures t.userId == userId && t.id == u.id && t.title == u.title && t.completed == u.completed
  {
    Todo(userId := userId, id := u.id, title := u.title, completed := u.completed)
  }

  /** Whatever owner is supplied, converting back to the UI model gives the original. */
  lemma UiModelRoundTrip(u: TodoUiModel, userId: int)
    ensures ToUiModel(ToDomainModel(u, userId)) == u
  {
  }

  /** Converting to the UI model and back with the entity's own owner gives the entity. */
  lemma DomainRoundTrip(t: Todo)
    ensures ToDomainModel(ToUiModel(t), t.userId) == t
  {
  }

  /** Two entities look the same on screen exactly when they differ at most in their owner. */
  lemma ToUiModelForgetsOnlyOwner(a: Todo, b: Todo)
    ensures ToUiModel(a) == ToUiModel(b) <==> a.(userId := 0) == b.(userId := 0)
  {
  }
}
