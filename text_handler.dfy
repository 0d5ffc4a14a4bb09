/**
 * handler/text_handler.py: a text message on the current step. A step that
 * wants images gets its instruction again; otherwise the tool caller sees the
 * message, and the first tool response decides what is said and whether the
 * journey advances.
 */
module TextHandler {
  import opened Wrappers
  import opened Json
  import opened Response
  import Mongo
  import ModelCalling
  import opened HandlerEffects

  /** `_extract_response_content(tool_response)`: the first response's content; nothing for an empty list. */
  function ExtractResponseContent(rs: seq<ModelCalling.ToolResponse>): (r: Option<ToolOutcome>)
    ensures rs == [] ==> r.None?
    ensures r.Some? ==> |rs| > 0 && rs[0].content == r
  {
    if rs == [] then None else rs[0].content
  }

  /** Only the first tool response is consulted: later ones never matter. */
  lemma OnlyFirstResponseConsulted(rs: seq<ModelCalling.ToolResponse>, more: seq<ModelCalling.ToolResponse>)
    requires rs != []
    ensures ExtractResponseContent(rs + more) == ExtractResponseContent(rs) == rs[0].content
  {
    assert (rs + more)[0] == rs[0];
  }

  /** Python truthiness of an optional `data`: `None` is false. */
  predicate DataTruthy(data: Option<Json>) {
    data.Some? && Truthy(data.value)
  }

  /** The fallback of every handler path without an outcome: the step's instruction for the message. */
  function Fallback(step: Mongo.Step, userResponse: string): Effect {
    Instruct(step, userResponse, None)
  }

  /**
   * `_handle_successful_response`: with `response_with_llm` the instruction is
   * phrased from the user's message when `data` is truthy and from the
   * outcome's message otherwise; without it the message is sent verbatim.
   * The advance comes after the message, iff the outcome completes the step.
   */
  function SuccessEffects(step: Mongo.Step, userResponse: string, o: ToolOutcome): (r: seq<Effect>)
    ensures |r| == (if o.markAsComplete then 2 else 1)
    ensures IsMessage(r[0]) && (|r| == 2 ==> r[1] == Advance)
    ensures Advance in r <==> o.markAsComplete
    ensures !o.responseWithLlm ==> r[0] == Say(o.message)
    ensures o.responseWithLlm ==> r[0].Instruct? && r[0].step == step && r[0].data == o.data
    ensures o.responseWithLlm && !DataTruthy(o.data) ==> r[0].userInput == o.message
  {
    var message :=
      if o.responseWithLlm then Instruct(step, if DataTruthy(o.data) then userResponse else o.message, o.data)
      else Say(o.message);
    [message] + (if o.markAsComplete then [Advance] else [])
  }

  /**
   * What `handle_text_input` does once the tool caller has answered; `None`
   * is the caller's exception, which propagates.
   */
  function ReplyEffects(step: Mongo.Step, userResponse: string, d: ModelCalling.Dispatch): (r: Option<seq<Effect>>)
    ensures r.None? <==> d.Raised?
    // exactly one message, sent before any advance
    ensures r.Some? ==> (|r.value| >= 1 && IsMessage(r.value[0])
      && forall i :: 1 <= i < |r.value| ==> r.value[i] == Advance)
    // the journey advances only on a successful outcome that completes the step
    ensures r.Some? ==> (Advance in r.value <==> (d.Responses? && ExtractResponseContent(d.items).Some?
      && ExtractResponseContent(d.items).value.status && ExtractResponseContent(d.items).value.markAsComplete))
    // no outcome: one fallback instruction
    ensures d.Fallback? || (d.Responses? && ExtractResponseContent(d.items).None?) ==>
      r == Some([Fallback(step, userResponse)])
    // a failed outcome is sent verbatim
    ensures d.Responses? && ExtractResponseContent(d.items).Some? && !ExtractResponseContent(d.items).value.status ==>
      r == Some([Say(ExtractResponseContent(d.items).value.message)])
    // a successful outcome is phrased by the model only when it asks for it
    ensures d.Responses? && ExtractResponseContent(d.items).Some? && ExtractResponseContent(d.items).value.status ==>
      var o := ExtractResponseContent(d.items).value;
      r.Some? && r.value[0] == (if o.responseWithLlm
        then Instruct(step, if DataTruthy(o.data) then userResponse else o.message, o.data)
        else Say(o.message))
  {
    match d
    case Raised => None
    case Fallback => Some([Fallback(step, userResponse)])
    case Responses(rs) =>
      match ExtractResponseContent(rs)
      case None => Some([Fallback(step, userResponse)])
      case Some(o) => Some(if o.status then SuccessEffects(step, userResponse, o) else [Say(o.message)])
  }

  /** The text handler; the message sender, the instruction caller and the advance are its controller's. */
  class TextInputHandler {
    const toolCaller: ModelCalling.ToolCaller

    constructor (toolCaller: ModelCalling.ToolCaller)
      ensures this.toolCaller == toolCaller
    {
      this.toolCaller := toolCaller;
    }

    /**
     * `handle_text_input(user_response, step_details, client_id)`: the effects
     * to run, `None` when it raises. `report` is what `report_getter` yields
     * for the client (`None` when it raises); only a step without images
     * reads it, and only such a step reaches the tool caller, with the step's
     * `available_functions`.
     */
    method HandleTextInput(userResponse: string, step: Mongo.Step, report: Option<string>) returns (effects: Option<seq<Effect>>)
      modifies toolCaller
      ensures step.requireImages ==>
        effects == Some([Fallback(step, userResponse)]) && toolCaller.State() == old(toolCaller.State())
      ensures !step.requireImages && report.None? ==>
        effects.None? && toolCaller.State() == old(toolCaller.State())
      ensures !step.requireImages && report.Some? ==>
        var (d, e) := ModelCalling.ProcessInputToolSpec(
          toolCaller.cfg, userResponse, step.availableFunctions, report.value, old(toolCaller.State()));
        effects == ReplyEffects(step, userResponse, d) && toolCaller.State() == e
    {
      if step.requireImages {
        return Some([Fallback(step, userResponse)]);
      }
      if report.None? {
        return None;
      }
      var d := toolCaller.ProcessInputTool(userResponse, step.availableFunctions, report.value);
      effects := ReplyEffects(step, userResponse, d);
    }
  }
}
