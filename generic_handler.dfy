/**
 * handler/generic_handler.py: the media handler. It keeps a table from step
 * names to media tools, announces the processing, runs the tool registered
 * under the step's name, sends the tool's message and advances on success.
 */
module GenericHandler {
  import opened Wrappers
  import opened Response
  import Mongo
  import Nebuia
  import opened HandlerEffects

  const NoFunctionMessage := "Función no especificada en step_details"
  const ProcessingMessage := "Procesando su solicitud, por favor espere..."

  /** The outcome `handle_function` returns for a name nobody registered. */
  function UnknownFunction(name: string): (r: StructuredResponse)
    ensures !r.status && r.data.None?
    ensures r.message == "Función no reconocida: " + name
  {
    Error("Función no reconocida: " + name)
  }

  /** What `handle_function` does with a tool's outcome: one message, then the advance iff it succeeded. */
  function ResultEffects(result: StructuredResponse): (r: seq<Effect>)
    ensures |r| >= 1 && r[0] == Say(result.message)
    ensures forall i :: 1 <= i < |r| ==> r[i] == Advance
    ensures Advance in r <==> result.status
  {
    [Say(result.message)] + (if result.status then [Advance] else [])
  }

  /** The effects of a media tool's outcome: none when it raised. */
  function MediaEffects(reply: Option<StructuredResponse>): (r: seq<Effect>)
    ensures reply.None? ==> r == []
    ensures reply.Some? ==> |r| >= 1 && r[0] == Say(reply.value.message)
    ensures Advance in r <==> reply.Some? && reply.value.status
  {
    if reply.None? then [] else ResultEffects(reply.value)
  }

  /** `GenericMediaHandler`: `function_map` holds the registered media tools. */
  class GenericMediaHandler {
    const functions: Nebuia.NebuiaFunctions
    var functionMap: map<string, Nebuia.MediaHandler>

    constructor (functions: Nebuia.NebuiaFunctions)
      ensures this.functions == functions && functionMap == map[]
    {
      this.functions := functions;
      functionMap := map[];
    }

    /** `add_function(function_name, function)`: inserts or overwrites one entry. */
    method AddFunction(name: string, f: Nebuia.MediaHandler)
      modifies this
      ensures functionMap == old(functionMap)[name := f]
      ensures forall n :: n in old(functionMap) && n != name ==> n in functionMap && functionMap[n] == old(functionMap)[n]
    {
      functionMap := functionMap[name := f];
    }

    /**
     * `handle_function(function_name, step_details, client_id)`: the outcome
     * (`None` when the tool raises) and the effects it asks for.
     */
    method HandleFunction(name: string, step: Mongo.Step, clientId: string)
      returns (result: Option<StructuredResponse>, effects: seq<Effect>)
      modifies functions.db, functions.nebuia
      ensures name !in functionMap ==>
        result == Some(UnknownFunction(name)) && effects == []
        && functions.db.clients == old(functions.db.clients) && functions.nebuia.headers == old(functions.nebuia.headers)
      ensures name in functionMap && result.None? ==> effects == []
      ensures name in functionMap && result.Some? ==> effects == ResultEffects(result.value)
      ensures name in functionMap ==>
        var o := Nebuia.MediaToolOutcome(functions.Env(), functionMap[name], old(functions.db.clients),
          old(functions.nebuia.headers), step, clientId);
        result == o.reply && functions.db.clients == o.clients && functions.nebuia.headers == o.headers
      ensures name in functionMap && functionMap[name] == Nebuia.ProcessIneHandler && |step.images| == 1 ==>
        result == Some(Error(Nebuia.BackSideMessage)) && effects == [Say(Nebuia.BackSideMessage)]
        && functions.db.clients == old(functions.db.clients)
    {
      if name !in functionMap {
        return Some(UnknownFunction(name)), [];
      }
      result := functions.RunMediaTool(functionMap[name], step, clientId);
      if result.None? {
        return None, [];
      }
      effects := ResultEffects(result.value);
    }

    /**
     * `generate_media_response(step_details, client_id)`: the effects, in
     * order, and whether the tool raised after they were asked for.
     */
    method GenerateMediaResponse(step: Mongo.Step, clientId: string) returns (effects: seq<Effect>, raised: bool)
      modifies functions.db, functions.nebuia
      ensures step.functionName == "" ==>
        effects == [Say(NoFunctionMessage)] && !raised && functions.db.clients == old(functions.db.clients)
        && functions.nebuia.headers == old(functions.nebuia.headers)
      ensures step.functionName != "" ==> |effects| >= 1 && effects[0] == Say(ProcessingMessage)
      ensures step.functionName != "" && step.functionName !in functionMap ==>
        effects == [Say(ProcessingMessage)] && !raised && functions.db.clients == old(functions.db.clients)
        && functions.nebuia.headers == old(functions.nebuia.headers)
      ensures step.functionName != "" && step.functionName in functionMap ==>
        var o := Nebuia.MediaToolOutcome(functions.Env(), functionMap[step.functionName], old(functions.db.clients),
          old(functions.nebuia.headers), step, clientId);
        && raised == o.reply.None? && functions.db.clients == o.clients && functions.nebuia.headers == o.headers
        && effects == [Say(ProcessingMessage)] + MediaEffects(o.reply)
      ensures step.functionName != "" && step.functionName in functionMap && !raised ==>
        exists result :: effects == [Say(ProcessingMessage)] + ResultEffects(result)
    {
      if step.functionName == "" {
        return [Say(NoFunctionMessage)], false;
      }
      var result, handled := HandleFunction(step.functionName, step, clientId);
      effects := [Say(ProcessingMessage)] + handled;
      raised := result.None?;
    }
  }
}
