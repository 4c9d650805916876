/** Small value wrappers shared by every module of the model. */
module Wrappers {

  /** An optional value: `None` stands for JavaScript's null/undefined where the source uses them as "absent". */
  datatype Option<+T> = None | Some(value: T)

  /** The outcome of one call of a fallible asynchronous operation: it resolves with a value or rejects with an error. */
  datatype Attempt<+T, +E> = Ok(value: T) | Fail(error: E)

  /** The shape every IPC handler of the main process answers with: `{ success: true, data }` or `{ success: false, error }`. */
  datatype IpcReply<+T> = Success(data: T) | Failure(error: string)
}
