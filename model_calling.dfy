/**
 * engine/model_calling.py: the tool caller. It offers the model the tools
 * named for the current step plus `generic_response`, extracts the calls the
 * model makes, and either falls back (`None`) or executes the valid calls in
 * order. The model, the schema validator, the XML and JSON decoders and the
 * tools themselves are parameters; the Redis `report` key is a field.
 */
module ModelCalling {
  import opened Wrappers
  import opened Json
  import opened Response
  import EngineUtils

  /** An entry of `functions_to_apply` / the tool catalogue: `{'type': 'function', 'function': {...}}`. */
  datatype ToolSpec = ToolSpec(name: string, description: string, parameters: Json)

  const GenericResponseName := "generic_response"

  /** The `generic_call` catalogue entry: one required string argument `value`. */
  const GenericCall := ToolSpec(
    GenericResponseName,
    "generic_response(value: str) -> dict - Generate generic response for user input if none of functions match.\n\n    Args:\n    value(str): input from user.\n\n    Returns:\n    dict: A dictionary containing fundamental data.",
    JObj(map[
      "type" := JStr("object"),
      "properties" := JObj(map["value" := JObj(map["type" := JStr("string")])]),
      "required" := JArr([JStr("value")])]))

  /** The entries whose name is `name`, in order. */
  function WithName(fs: seq<ToolSpec>, name: string): (r: seq<ToolSpec>)
    ensures forall k :: 0 <= k < |r| ==> r[k].name == name
    ensures forall k :: 0 <= k < |fs| && fs[k].name == name ==> fs[k] in r
    ensures forall k :: 0 <= k < |r| ==> r[k] in fs
    ensures |r| <= |fs|
    decreases |fs|
  {
    if |fs| == 0 then []
    else (if fs[0].name == name then [fs[0]] else []) + WithName(fs[1..], name)
  }

  /** The filter keeps the order of the catalogue: filtering a concatenation concatenates the filtered halves. */
  lemma {:induction false} WithNameConcat(a: seq<ToolSpec>, b: seq<ToolSpec>, name: string)
    ensures WithName(a + b, name) == WithName(a, name) + WithName(b, name)
    decreases |a|
  {
    if |a| == 0 {
      assert a + b == b;
    } else {
      assert (a + b)[0] == a[0];
      assert (a + b)[1..] == a[1..] + b;
      WithNameConcat(a[1..], b, name);
    }
  }

  /** Each entry named `name` is kept as often as it occurs, and no other entry is kept. */
  lemma {:induction false} WithNameCounts(fs: seq<ToolSpec>, name: string, t: ToolSpec)
    ensures multiset(WithName(fs, name))[t] == if t.name == name then multiset(fs)[t] else 0
    decreases |fs|
  {
    if |fs| > 0 {
      WithNameCounts(fs[1..], name, t);
      assert fs == [fs[0]] + fs[1..];
    }
  }

  /** The tools the prompt offers: the step's own entries, then `generic_call` last. */
  function OfferedTools(functionsToApply: seq<ToolSpec>, step: string): (r: seq<ToolSpec>)
    ensures |r| >= 1 && r[|r| - 1] == GenericCall
    ensures r[..|r| - 1] == WithName(functionsToApply, step)
  {
    WithName(functionsToApply, step) + [GenericCall]
  }

  /** Offering never drops a matching entry and never offers a foreign one besides `generic_call`. */
  lemma OfferedToolsAreTheStepsOwn(functionsToApply: seq<ToolSpec>, step: string, t: ToolSpec)
    ensures t in OfferedTools(functionsToApply, step) <==>
      t == GenericCall || (t in functionsToApply && t.name == step)
  {
    var w := WithName(functionsToApply, step);
    assert OfferedTools(functionsToApply, step) == w + [GenericCall];
    if t in w {
      WithNameFrom(functionsToApply, step, t);
    }
  }

  lemma {:induction false} WithNameFrom(fs: seq<ToolSpec>, name: string, t: ToolSpec)
    requires t in WithName(fs, name)
    ensures t in fs
    decreases |fs|
  {
    if |fs| > 0 && !(fs[0].name == name && t == fs[0]) {
      assert t in WithName(fs[1..], name);
      WithNameFrom(fs[1..], name, t);
    }
  }

  /** A tool's invocation: a return value (absent for `None`) or an exception. */
  datatype InvokeResult = Returned(content: Option<ToolOutcome>) | Failed

  /** A call of a tool, with what the report slot held while it ran. */
  datatype Invocation = Invocation(name: string, value: Json, reportSlot: Option<string>)

  /** `{"name": function_name, "content": function_response}` */
  datatype ToolResponse = ToolResponse(name: string, content: Option<ToolOutcome>)

  /** `process_input_tool`'s result: `None`, the list of responses, or an exception. */
  datatype Dispatch = Fallback | Responses(items: seq<ToolResponse>) | Raised

  /** The collaborators of the tool caller. */
  datatype CallerConfig = CallerConfig(
    functionsToApply: seq<ToolSpec>,
    clientFunctions: set<string>,                     // the names `getattr` finds on the client
    tools: seq<ToolSpec>,                             // `client_functions.get_openai_tools()`
    callLlm: (seq<ToolSpec>, string) -> string,        // the model's reply to the offered tools and the message
    parseXml: string -> Option<seq<Option<string>>>,
    jsonLoads: string -> Option<Json>,
    literalEval: string -> Option<Json>,
    validate: (Json, seq<ToolSpec>) -> bool,          // `validate_function_call_schema`
    invoke: (string, Json) -> InvokeResult)

  /** What the tool caller changes: the `report` slot and the log of tool invocations. */
  datatype Effects = Effects(reportSlot: Option<string>, invocations: seq<Invocation>)

  datatype ExecResult = Executed(response: ToolResponse) | ExecRaised

  /** The `any(func['function']['name'] == function_name ...)` test. */
  predicate Applies(functionsToApply: seq<ToolSpec>, name: Json) {
    exists k :: 0 <= k < |functionsToApply| && JStr(functionsToApply[k].name) == name
  }

  /** `_execute_function_call(tool_call, report)` */
  function ExecuteSpec(cfg: CallerConfig, call: Json, report: string, e: Effects): (r: (ExecResult, Effects))
    ensures call.JObj? && !Applies(cfg.functionsToApply, Get(call.fields, "name")) ==> r == (ExecRaised, e)
    ensures r.0.Executed? ==> r.1.reportSlot.None?
    ensures r.0.Executed? ==> |r.1.invocations| == |e.invocations| + 1 && r.1.invocations[..|e.invocations|] == e.invocations
  {
    if !call.JObj? then (ExecRaised, e)
    else
      var name := Get(call.fields, "name");
      if !Applies(cfg.functionsToApply, name) then (ExecRaised, e)
      else
        var n := name.strValue;
        if n !in cfg.clientFunctions then (ExecRaised, e)
        else
          var args := GetOr(call.fields, "arguments", JObj(map[]));
          var stored := e.(reportSlot := Some(report));
          if !args.JObj? then (ExecRaised, stored)
          else
            var value := GetOr(args.fields, "value", JStr(""));
            var called := stored.(invocations := stored.invocations + [Invocation(n, value, Some(report))]);
            match cfg.invoke(n, value)
            case Failed => (ExecRaised, called)
            case Returned(c) =>
              assert called.invocations[..|e.invocations|] == e.invocations;
              (Executed(ToolResponse(n, c)), called.(reportSlot := None))
  }

  /** The value handed to the tool: `arguments["value"]`, or `""` without one. */
  function CallValue(call: Json): Json
    requires call.JObj?
  {
    var args := GetOr(call.fields, "arguments", JObj(map[]));
    if args.JObj? then GetOr(args.fields, "value", JStr("")) else JNull
  }

  /**
   * A normal execution invokes the named tool once with the call's `value`
   * (`""` when absent), with the report in the slot during the call, and
   * leaves the slot empty afterwards.
   */
  lemma ExecutedCall(cfg: CallerConfig, call: Json, report: string, e: Effects)
    requires ExecuteSpec(cfg, call, report, e).0.Executed?
    ensures call.JObj? && Get(call.fields, "name").JStr?
    ensures var n := Get(call.fields, "name").strValue;
      && n in cfg.clientFunctions
      && GetOr(call.fields, "arguments", JObj(map[])).JObj?
      && ExecuteSpec(cfg, call, report, e).1 == Effects(None, e.invocations + [Invocation(n, CallValue(call), Some(report))])
      && cfg.invoke(n, CallValue(call)).Returned?
      && ExecuteSpec(cfg, call, report, e).0.response == ToolResponse(n, cfg.invoke(n, CallValue(call)).content)
  {
  }

  /** A tool that raises leaves the report in the slot: nothing clears it. */
  lemma FailedToolKeepsReport(cfg: CallerConfig, call: Json, report: string, e: Effects)
    requires call.JObj? && Applies(cfg.functionsToApply, Get(call.fields, "name"))
    requires Get(call.fields, "name").strValue in cfg.clientFunctions
    requires GetOr(call.fields, "arguments", JObj(map[])).JObj?
    requires cfg.invoke(Get(call.fields, "name").strValue, CallValue(call)).Failed?
    ensures ExecuteSpec(cfg, call, report, e).0.ExecRaised?
    ensures ExecuteSpec(cfg, call, report, e).1.reportSlot == Some(report)
  {
    var k :| 0 <= k < |cfg.functionsToApply| && JStr(cfg.functionsToApply[k].name) == Get(call.fields, "name");
  }

  /** Every call of `process_input_tool`'s batch must be a dict with a `name` (`f['name']`). */
  predicate AllNamed(calls: seq<Json>) {
    forall k :: 0 <= k < |calls| ==> calls[k].JObj? && "name" in calls[k].fields
  }

  predicate IsGeneric(call: Json) {
    call.JObj? && Get(call.fields, "name") == JStr(GenericResponseName)
  }

  function GenericCount(calls: seq<Json>): (r: nat)
    ensures r <= |calls|
    ensures r == 0 <==> forall k :: 0 <= k < |calls| ==> !IsGeneric(calls[k])
    ensures r == |calls| <==> forall k :: 0 <= k < |calls| ==> IsGeneric(calls[k])
    decreases |calls|
  {
    if |calls| == 0 then 0
    else
      var rest := GenericCount(calls[1..]);
      assert forall k :: 1 <= k < |calls| ==> calls[k] == calls[1..][k - 1];
      (if IsGeneric(calls[0]) then 1 else 0) + rest
  }

  /** The loop state of `process_input_tool`: still going, or returned early. */
  datatype DispatchState = Going(responses: seq<ToolResponse>, effects: Effects) | Stopped(raised: bool, effects: Effects)

  /** One iteration over the extracted calls; `anyGeneric` is whether the batch holds a generic call. */
  function DispatchStep(cfg: CallerConfig, st: DispatchState, call: Json, anyGeneric: bool, report: string): (r: DispatchState)
    ensures st.Stopped? ==> r == st
    ensures r.Going? ==> (st.Going? && |st.responses| <= |r.responses| <= |st.responses| + 1
      && r.responses[..|st.responses|] == st.responses)
    ensures st.Going? && !cfg.validate(call, cfg.tools) ==> r == (if anyGeneric then Stopped(false, st.effects) else st)
    ensures st.Going? && r.Stopped? && r.raised ==> cfg.validate(call, cfg.tools)
  {
    match st
    case Stopped(_, _) => st
    case Going(responses, e) =>
      if cfg.validate(call, cfg.tools) then
        match ExecuteSpec(cfg, call, report, e)
        case (ExecRaised, e1) => Stopped(true, e1)
        case (Executed(resp), e1) => Going(responses + [resp], e1)
      else if anyGeneric then Stopped(false, e)
      else st
  }

  function DispatchRun(cfg: CallerConfig, calls: seq<Json>, anyGeneric: bool, report: string, e: Effects): DispatchState
    decreases |calls|
  {
    if |calls| == 0 then Going([], e)
    else DispatchStep(cfg, DispatchRun(cfg, calls[..|calls| - 1], anyGeneric, report, e), calls[|calls| - 1], anyGeneric, report)
  }

  /** The loop collects at most one response per call, and an empty batch collects none. */
  lemma {:induction false} DispatchRunBounded(cfg: CallerConfig, calls: seq<Json>, anyGeneric: bool, report: string, e: Effects)
    ensures |calls| == 0 ==> DispatchRun(cfg, calls, anyGeneric, report, e) == Going([], e)
    ensures DispatchRun(cfg, calls, anyGeneric, report, e).Going? ==> |DispatchRun(cfg, calls, anyGeneric, report, e).responses| <= |calls|
    decreases |calls|
  {
    if |calls| > 0 {
      DispatchRunBounded(cfg, calls[..|calls| - 1], anyGeneric, report, e);
    }
  }

  /** The decision on an extracted batch. */
  function DispatchCalls(cfg: CallerConfig, calls: seq<Json>, report: string, e: Effects): (r: (Dispatch, Effects))
    ensures !AllNamed(calls) ==> r == (Raised, e)
    ensures AllNamed(calls) && GenericCount(calls) == |calls| ==> r == (Fallback, e)
    ensures r.0.Responses? ==> |r.0.items| <= |calls|
  {
    DispatchRunBounded(cfg, calls, GenericCount(calls) > 0, report, e);
    if !AllNamed(calls) then (Raised, e)
    else if GenericCount(calls) == |calls| then (Fallback, e)
    else
      match DispatchRun(cfg, calls, GenericCount(calls) > 0, report, e)
      case Going(responses, e1) => (Responses(responses), e1)
      case Stopped(raised, e1) => (if raised then Raised else Fallback, e1)
  }

  /** The calls extracted from the model's reply to the offered tools and the message. */
  function ExtractedCalls(cfg: CallerConfig, msg: string, step: string): seq<Json> {
    var reply := cfg.callLlm(OfferedTools(cfg.functionsToApply, step), msg);
    EngineUtils.ExtractToolCalls(reply, cfg.parseXml, cfg.jsonLoads, cfg.literalEval).toolCalls
  }

  /** `process_input_tool(msg, function, report)` */
  function ProcessInputToolSpec(cfg: CallerConfig, msg: string, step: string, report: string, e: Effects): (r: (Dispatch, Effects))
    ensures var calls := ExtractedCalls(cfg, msg, step);
      && (!AllNamed(calls) ==> r == (Raised, e))
      && (AllNamed(calls) && GenericCount(calls) == |calls| ==> r == (Fallback, e))
      && (r.0.Responses? ==> |r.0.items| <= |calls|)
  {
    DispatchCalls(cfg, ExtractedCalls(cfg, msg, step), report, e)
  }

  /** Once the loop has returned, later calls change nothing. */
  lemma {:induction false} StoppedStaysStopped(cfg: CallerConfig, calls: seq<Json>, more: seq<Json>, anyGeneric: bool, report: string, e: Effects)
    requires DispatchRun(cfg, calls, anyGeneric, report, e).Stopped?
    ensures DispatchRun(cfg, calls + more, anyGeneric, report, e) == DispatchRun(cfg, calls, anyGeneric, report, e)
    decreases |more|
  {
    if |more| == 0 {
      assert calls + more == calls;
    } else {
      StoppedStaysStopped(cfg, calls, more[..|more| - 1], anyGeneric, report, e);
      assert (calls + more)[..|calls + more| - 1] == calls + more[..|more| - 1];
    }
  }

  /** The loop state after call `i` is one step from the state before it. */
  lemma DispatchRunNext(cfg: CallerConfig, calls: seq<Json>, i: nat, anyGeneric: bool, report: string, e: Effects)
    requires i < |calls|
    ensures DispatchRun(cfg, calls[..i + 1], anyGeneric, report, e)
         == DispatchStep(cfg, DispatchRun(cfg, calls[..i], anyGeneric, report, e), calls[i], anyGeneric, report)
  {
    assert calls[..i + 1][..i] == calls[..i];
  }

  /** A loop that stops at call `i` ends with that state. */
  lemma StopsAt(cfg: CallerConfig, calls: seq<Json>, i: nat, anyGeneric: bool, report: string, e: Effects)
    requires i < |calls|
    requires DispatchRun(cfg, calls[..i + 1], anyGeneric, report, e).Stopped?
    ensures DispatchRun(cfg, calls, anyGeneric, report, e) == DispatchRun(cfg, calls[..i + 1], anyGeneric, report, e)
  {
    StoppedStaysStopped(cfg, calls[..i + 1], calls[i + 1..], anyGeneric, report, e);
    assert calls[..i + 1] + calls[i + 1..] == calls;
  }

  // reference reading of the responses

  /** The response a valid call produces when its tool returns normally. */
  function ExpectedResponse(cfg: CallerConfig, call: Json): ToolResponse
    requires call.JObj? && Get(call.fields, "name").JStr?
  {
    var n := Get(call.fields, "name").strValue;
    ToolResponse(n, if cfg.invoke(n, CallValue(call)).Returned? then cfg.invoke(n, CallValue(call)).content else None)
  }

  /** One response per valid call, in the calls' order. */
  function ValidResponses(cfg: CallerConfig, calls: seq<Json>): (r: seq<ToolResponse>)
    requires AllNamed(calls)
    requires forall k :: 0 <= k < |calls| && cfg.validate(calls[k], cfg.tools) ==> Get(calls[k].fields, "name").JStr?
    ensures |r| <= |calls|
    ensures (forall k :: 0 <= k < |calls| ==> cfg.validate(calls[k], cfg.tools)) ==> |r| == |calls|
    decreases |calls|
  {
    if |calls| == 0 then []
    else
      var prefix := calls[..|calls| - 1];
      var last := calls[|calls| - 1];
      assert forall k :: 0 <= k < |prefix| ==> prefix[k] == calls[k];
      ValidResponses(cfg, prefix) + (if cfg.validate(last, cfg.tools) then [ExpectedResponse(cfg, last)] else [])
  }

  /**
   * While the loop is going, its responses are exactly one per valid call so
   * far, in order (each executed call's name is a string, since it passed the
   * `functions_to_apply` test).
   */
  lemma {:induction false} GoingResponses(cfg: CallerConfig, calls: seq<Json>, anyGeneric: bool, report: string, e: Effects)
    requires AllNamed(calls)
    requires DispatchRun(cfg, calls, anyGeneric, report, e).Going?
    ensures forall k :: 0 <= k < |calls| && cfg.validate(calls[k], cfg.tools) ==> Get(calls[k].fields, "name").JStr?
    ensures DispatchRun(cfg, calls, anyGeneric, report, e).responses == ValidResponses(cfg, calls)
    decreases |calls|
  {
    if |calls| > 0 {
      var prefix := calls[..|calls| - 1];
      var last := calls[|calls| - 1];
      assert forall k :: 0 <= k < |prefix| ==> prefix[k] == calls[k];
      var st := DispatchRun(cfg, prefix, anyGeneric, report, e);
      GoingResponses(cfg, prefix, anyGeneric, report, e);
      if cfg.validate(last, cfg.tools) {
        ExecutedCall(cfg, last, report, st.effects);
      }
    }
  }

  /** A batch that dispatches normally responds once per valid call, in extraction order. */
  lemma ResponsesFollowValidCalls(cfg: CallerConfig, calls: seq<Json>, report: string, e: Effects)
    requires DispatchCalls(cfg, calls, report, e).0.Responses?
    ensures AllNamed(calls)
    ensures forall k :: 0 <= k < |calls| && cfg.validate(calls[k], cfg.tools) ==> Get(calls[k].fields, "name").JStr?
    ensures DispatchCalls(cfg, calls, report, e).0.items == ValidResponses(cfg, calls)
  {
    assert AllNamed(calls) && GenericCount(calls) < |calls|;
    GoingResponses(cfg, calls, GenericCount(calls) > 0, report, e);
  }

  /**
   * An invalid call in a batch holding a generic call makes the result `None`,
   * after the valid calls before it were executed; nothing after it runs.
   */
  lemma InvalidWithGenericFallsBack(cfg: CallerConfig, before: seq<Json>, call: Json, after: seq<Json>, report: string, e: Effects)
    requires var calls := before + [call] + after; AllNamed(calls) && 0 < GenericCount(calls) < |calls|
    requires !cfg.validate(call, cfg.tools)
    requires DispatchRun(cfg, before, true, report, e).Going?
    ensures DispatchCalls(cfg, before + [call] + after, report, e) == (Fallback, DispatchRun(cfg, before, true, report, e).effects)
  {
    var calls := before + [call] + after;
    assert (before + [call])[..|before|] == before;
    StoppedStaysStopped(cfg, before + [call], after, true, report, e);
  }

  /** With no generic call in the batch, an invalid call is skipped. */
  lemma InvalidWithoutGenericSkipped(cfg: CallerConfig, before: seq<Json>, call: Json, report: string, e: Effects)
    requires !cfg.validate(call, cfg.tools)
    ensures DispatchRun(cfg, before + [call], false, report, e) == DispatchRun(cfg, before, false, report, e)
  {
    assert (before + [call])[..|before|] == before;
  }

  /** The tool caller: its collaborators, the Redis `report` slot and the tools it has invoked. */
  class ToolCaller {
    const cfg: CallerConfig
    var reportSlot: Option<string>
    var invocations: seq<Invocation>

    constructor (cfg: CallerConfig)
      ensures this.cfg == cfg && reportSlot.None? && invocations == []
    {
      this.cfg := cfg;
      reportSlot := None;
      invocations := [];
    }

    function State(): Effects
      reads this
    {
      Effects(reportSlot, invocations)
    }

    /** `_execute_function_call(tool_call, report)`: `None` is the exception. */
    method ExecuteFunctionCall(call: Json, report: string) returns (r: Option<ToolResponse>)
      modifies this
      ensures var spec := ExecuteSpec(cfg, call, report, old(State()));
        && State() == spec.1
        && (r.Some? <==> spec.0.Executed?)
        && (r.Some? ==> r.value == spec.0.response)
    {
      if !call.JObj? {
        return None;
      }
      var name := Get(call.fields, "name");
      if !Applies(cfg.functionsToApply, name) {
        return None;
      }
      var n := name.strValue;
      if n !in cfg.clientFunctions {
        return None;
      }
      var args := GetOr(call.fields, "arguments", JObj(map[]));
      reportSlot := Some(report);
      if !args.JObj? {
        return None;
      }
      var value := GetOr(args.fields, "value", JStr(""));
      invocations := invocations + [Invocation(n, value, reportSlot)];
      var result := cfg.invoke(n, value);
      if result.Failed? {
        return None;
      }
      reportSlot := None;
      r := Some(ToolResponse(n, result.content));
    }

    /** `process_input_tool(msg, function, report)` */
    method ProcessInputTool(msg: string, step: string, report: string) returns (r: Dispatch)
      modifies this
      ensures (r, State()) == ProcessInputToolSpec(cfg, msg, step, report, old(State()))
    {
      var offered := OfferedTools(cfg.functionsToApply, step);
      var reply := cfg.callLlm(offered, msg);
      var _, calls, _ := EngineUtils.ValidateAndExtractToolCalls(reply, cfg.parseXml, cfg.jsonLoads, cfg.literalEval);
      assert calls == ExtractedCalls(cfg, msg, step);
      r := DispatchBatch(calls, report);
    }

    /** The part of `process_input_tool` after the extraction: fall back, or run the valid calls. */
    method DispatchBatch(calls: seq<Json>, report: string) returns (r: Dispatch)
      modifies this
      ensures (r, State()) == DispatchCalls(cfg, calls, report, old(State()))
    {
      if !AllNamed(calls) {
        return Raised;
      }
      var generics := GenericCount(calls);
      if generics == |calls| {
        return Fallback;
      }
      ghost var e0 := State();
      var responses: seq<ToolResponse> := [];
      var i := 0;
      while i < |calls|
        invariant 0 <= i <= |calls|
        invariant DispatchRun(cfg, calls[..i], generics > 0, report, e0) == Going(responses, State())
      {
        var call := calls[i];
        DispatchRunNext(cfg, calls, i, generics > 0, report, e0);
        if cfg.validate(call, cfg.tools) {
          var resp := ExecuteFunctionCall(call, report);
          if resp.None? {
            StopsAt(cfg, calls, i, generics > 0, report, e0);
            return Raised;
          }
          responses := responses + [resp.value];
        } else if generics > 0 {
          StopsAt(cfg, calls, i, generics > 0, report, e0);
          return Fallback;
        }
        i := i + 1;
      }
      assert calls[..i] == calls;
      r := Responses(responses);
    }
  }
}
