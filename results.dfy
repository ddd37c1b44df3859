/** The app-wide state of an asynchronous load (util/Result.kt). */
module Results {

  /**
   * `Loading`, `Success(data)` or `Error(exception)`; an error is represented
   * by its exception's message.
   */
  datatype Result<+T> = Loading | Success(data: T) | Error(message: string)
}
