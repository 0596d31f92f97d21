/** The values exchanged with the text-generation model: chat turns and the
    prompts the evaluator is given. */
module Conversation {

  /** The role of a chat turn. */
  datatype Role = System | User | Assistant

  /** One chat message, `{"role": ..., "content": ...}`. */
  datatype Turn = Turn(role: Role, content: string)

  /** A `(prompt, test)` pair: the conversation given to the model and the
      withheld assertion the generated code is checked against. */
  datatype Prompt = Prompt(messages: seq<Turn>, test: string)
}
