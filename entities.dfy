/** The four-field todo records: the domain entity, the UI model and the two wire DTOs. */
module Entities {

  /** Domain entity; `id == 0` marks a draft the server has not numbered yet. */
  datatype Todo = Todo(userId: int, id: int, title: string, completed: bool)

  /** What the screens display: the domain entity without its owner. */
  datatype TodoUiModel = TodoUiModel(id: int, title: string, completed: bool)

  /** Body sent to the API on create and update. */
  datatype TodoRequest = TodoRequest(userId: int, id: int, title: string, completed: bool)

  /** Body the API answers with. */
  datatype TodoResponse = TodoResponse(userId: int, id: int, title: string, completed: bool)
}
