/** Values shared by the session-history registry and the lesson state machine. */
module Types {

  datatype Option<T> = None | Some(value: T)

  /** Who produced a chat message. */
  datatype Role = User | Assistant

  /** One chat message: the transcript entries of the lesson page and the history entries. */
  datatype Message = Message(role: Role, content: string)

  /**
   * One row of the mistakes table, with the five columns the application writes.
   * The auto-increment id and the insertion timestamp are assigned by the database
   * and are not part of this model.
   */
  datatype MistakeRecord = MistakeRecord(
    nativeLanguage: string,
    targetLanguage: string,
    errorSentence: string,
    correctedSentence: string,
    errorType: string)
}
