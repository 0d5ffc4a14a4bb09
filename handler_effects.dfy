/**
 * What the conversation handlers ask of their controller, in order: send a
 * message, send the instruction `call_description_instruction` phrases for a
 * step, or advance the journey past the current step (`next_step`).
 */
module HandlerEffects {
  import opened Wrappers
  import Json
  import Mongo

  datatype Effect =
    | Say(body: string)
    | Instruct(step: Mongo.Step, userInput: string, data: Option<Json.Json>)
    | Advance

  /** Whether an effect sends a message to the client. */
  predicate IsMessage(e: Effect) {
    e.Say? || e.Instruct?
  }
}
