/**
 * controllers/default_controller.py: the controller composes the store, the
 * promoter robot's phrasings, the tool caller and the two handlers. It runs
 * the effects the handlers ask for, in order: a message is appended to the
 * trace of sent WhatsApp messages; an advance completes the current step and
 * announces the next one.
 */
module Controller {
  import opened Wrappers
  import opened Json
  import Mongo
  import ModelCalling
  import Nebuia
  import opened HandlerEffects
  import TextHandler
  import GenericHandler

  /** A WhatsApp message to a client; the sender is the configured number. */
  datatype Sent = Sent(to: string, body: string)

  const FinishedMessage := "Has terminado."
  const NoMediaMessage := "Este paso no requiere de multimedia"

  /**
   * The promoter robot's phrasings, each a function of what it is given:
   * `generate_instruction(step, summary)`, `generate_instruction_with_explain`,
   * `generate_hello()` and `generic_conversation(msg)`.
   */
  datatype Promoter = Promoter(
    instruct: (string, string) -> string,
    explain: (string, string, string, Option<Json>) -> string,
    hello: string,
    genericConversation: string -> string)

  /** `call_description_instruction(step, user_input, data)`: the plain instruction iff there is no user input. */
  function Describe(p: Promoter, step: Mongo.Step, userInput: string, data: Option<Json>): (r: string)
    ensures userInput == "" ==> r == p.instruct(step.value, step.summary)
    ensures userInput != "" ==> r == p.explain(step.value, step.summary, userInput, data)
  {
    if userInput == "" then p.instruct(step.value, step.summary)
    else p.explain(step.value, step.summary, userInput, data)
  }

  /** What `next_step` sends after completing a step: the instruction of the step now active, or the end. */
  function NextMessage(p: Promoter, clients: map<string, Mongo.ClientRecord>, id: string): (r: string)
    ensures Mongo.ClientStep(clients, id).None? ==> r == FinishedMessage
    ensures Mongo.ClientStep(clients, id).Some? ==>
      var s := Mongo.ClientStep(clients, id).value;
      r == p.instruct(s.value, s.summary)
  {
    match Mongo.ClientStep(clients, id)
    case Some(s) => Describe(p, s, "", None)
    case None => FinishedMessage
  }

  /** What the controller's effects act on: the `clients` collection and the messages sent so far. */
  datatype World = World(clients: map<string, Mongo.ClientRecord>, trace: seq<Sent>)

  /**
   * One effect for client `id` on `step`: a message is sent; an advance
   * completes `step` and then reads the active step of the updated record.
   */
  function RunEffect(p: Promoter, w: World, id: string, step: Mongo.Step, e: Effect): (r: World)
    ensures |r.trace| == |w.trace| + 1 && r.trace[..|w.trace|] == w.trace && r.trace[|w.trace|].to == id
    ensures e.Say? ==> r.trace[|w.trace|].body == e.body
    ensures !e.Advance? ==> r.clients == w.clients
    ensures e.Advance? ==> (r.clients == Mongo.MarkClient(w.clients, id, step.functionName)
      && r.trace[|w.trace|].body == NextMessage(p, r.clients, id))
  {
    match e
    case Say(body) => World(w.clients, w.trace + [Sent(id, body)])
    case Instruct(s, userInput, data) => World(w.clients, w.trace + [Sent(id, Describe(p, s, userInput, data))])
    case Advance =>
      var clients := Mongo.MarkClient(w.clients, id, step.functionName);
      World(clients, w.trace + [Sent(id, NextMessage(p, clients, id))])
  }

  /** The effects run in order. */
  function RunEffects(p: Promoter, w: World, id: string, step: Mongo.Step, es: seq<Effect>): World
    decreases |es|
  {
    if es == [] then w
    else RunEffect(p, RunEffects(p, w, id, step, es[..|es| - 1]), id, step, es[|es| - 1])
  }

  /** Running two lists of effects is running their concatenation. */
  lemma {:induction false} RunEffectsConcat(p: Promoter, w: World, id: string, step: Mongo.Step, a: seq<Effect>, b: seq<Effect>)
    ensures RunEffects(p, w, id, step, a + b) == RunEffects(p, RunEffects(p, w, id, step, a), id, step, b)
    decreases |b|
  {
    if b == [] {
      assert a + b == a;
    } else {
      assert (a + b)[..|a + b| - 1] == a + b[..|b| - 1];
      assert (a + b)[|a + b| - 1] == b[|b| - 1];
      RunEffectsConcat(p, w, id, step, a, b[..|b| - 1]);
    }
  }

  /**
   * Every effect sends exactly one message, after the ones already sent; a
   * `Say` sends its own text.
   */
  lemma {:induction false} RunEffectsTrace(p: Promoter, w: World, id: string, step: Mongo.Step, es: seq<Effect>)
    ensures var t := RunEffects(p, w, id, step, es).trace;
      && |t| == |w.trace| + |es| && t[..|w.trace|] == w.trace
      && forall i :: 0 <= i < |es| && es[i].Say? ==> t[|w.trace| + i] == Sent(id, es[i].body)
    decreases |es|
  {
    if es != [] {
      var init := es[..|es| - 1];
      RunEffectsTrace(p, w, id, step, init);
      var t0 := RunEffects(p, w, id, step, init).trace;
      var t := RunEffects(p, w, id, step, es).trace;
      assert t == t0 + [t[|t| - 1]];
      assert t[..|w.trace|] == t0[..|w.trace|];
      forall i | 0 <= i < |es| && es[i].Say?
        ensures t[|w.trace| + i] == Sent(id, es[i].body)
      {
        if i < |es| - 1 {
          assert es[i] == init[i];
        }
      }
    }
  }

  /** Effects without an advance leave the collection alone. */
  lemma {:induction false} MessagesKeepClients(p: Promoter, w: World, id: string, step: Mongo.Step, es: seq<Effect>)
    requires Advance !in es
    ensures RunEffects(p, w, id, step, es).clients == w.clients
    decreases |es|
  {
    if es != [] {
      assert es[..|es| - 1] + [es[|es| - 1]] == es;
      MessagesKeepClients(p, w, id, step, es[..|es| - 1]);
    }
  }

  /**
   * `next_step` completes the step before reading the journey: completing the
   * active step announces the next incomplete step after it, or the end.
   */
  lemma AdvanceAnnouncesFollowingStep(p: Promoter, clients: map<string, Mongo.ClientRecord>, id: string, i: nat)
    requires id in clients
    requires Mongo.FirstIncompleteFrom(clients[id].steps, 0) == Some(i)
    requires Mongo.FirstWith(clients[id].steps, clients[id].steps[i].functionName) == Some(i)
    ensures var steps := clients[id].steps;
      var after := Mongo.MarkClient(clients, id, steps[i].functionName);
      NextMessage(p, after, id) == match Mongo.FirstIncompleteFrom(steps, i + 1)
        case Some(j) => Describe(p, steps[j], "", None)
        case None => FinishedMessage
  {
    var steps := clients[id].steps;
    var fn := steps[i].functionName;
    Mongo.CompletingActiveAdvances(steps, fn, i);
    var marked := Mongo.MarkComplete(steps, fn);
    Mongo.MarkCompleteTargetsFirst(steps, fn);
    assert Mongo.MarkClient(clients, id, fn)[id].steps == marked;
    match Mongo.FirstIncompleteFrom(steps, i + 1)
    case Some(j) =>
      assert marked[j] == steps[j];
    case None =>
  }

  /** The tools registered by walking `names` in order and adding each one that exists. */
  function ListedTools(names: seq<string>, tools: map<string, Nebuia.MediaHandler>): map<string, Nebuia.MediaHandler>
    decreases |names|
  {
    if names == [] then map[]
    else
      var registered := ListedTools(names[..|names| - 1], tools);
      var name := names[|names| - 1];
      if name in tools then registered[name := tools[name]] else registered
  }

  /** Walking the names registers exactly the listed names that are tools, each with its own tool. */
  lemma {:induction false} ListedToolsAreListedAndPresent(names: seq<string>, tools: map<string, Nebuia.MediaHandler>)
    ensures forall n :: n in ListedTools(names, tools) <==> n in names && n in tools
    ensures forall n :: n in ListedTools(names, tools) ==> ListedTools(names, tools)[n] == tools[n]
    decreases |names|
  {
    if names != [] {
      var init := names[..|names| - 1];
      ListedToolsAreListedAndPresent(init, tools);
      assert names == init + [names[|names| - 1]];
    }
  }

  /** The media tools `initialize_media_handler` registers for `function_names`. */
  function Registered(functionNames: Option<seq<string>>): (r: map<string, Nebuia.MediaHandler>)
    ensures functionNames.None? || functionNames.value == [] ==> r == Nebuia.GetMediaTools()
    ensures functionNames.Some? && functionNames.value != [] ==>
      forall n :: n in r <==> n in functionNames.value && n in Nebuia.GetMediaTools()
    ensures forall n :: n in r ==> n in Nebuia.GetMediaTools() && r[n] == Nebuia.GetMediaTools()[n]
  {
    var tools := Nebuia.GetMediaTools();
    if functionNames.None? || functionNames.value == [] then tools
    else
      ListedToolsAreListedAndPresent(functionNames.value, tools);
      ListedTools(functionNames.value, tools)
  }

  /** Registering one more key of `tools`. */
  lemma RegisterOneMore(tools: map<string, Nebuia.MediaHandler>, done: set<string>, name: string)
    requires name in tools && done <= tools.Keys
    ensures (map n | n in done :: tools[n])[name := tools[name]] == map n | n in done + {name} :: tools[n]
  {
    var a := (map n | n in done :: tools[n])[name := tools[name]];
    var b := map n | n in done + {name} :: tools[n];
    assert a.Keys == b.Keys;
  }

  /** Registering every tool. */
  lemma RegisteredAll(tools: map<string, Nebuia.MediaHandler>)
    ensures (map n | n in tools.Keys :: tools[n]) == tools
  {
  }

  class Controller {
    const store: Mongo.ClientStore
    const promoter: Promoter
    const caller: ModelCalling.ToolCaller
    const functions: Nebuia.NebuiaFunctions
    const textHandler: TextHandler.TextInputHandler
    var mediaHandler: GenericHandler.GenericMediaHandler
    var trace: seq<Sent>

    /** The media functions work on the controller's store, and the handlers on its tool caller and media functions. */
    ghost predicate Valid()
      reads this
    {
      functions.db == store && textHandler.toolCaller == caller && mediaHandler.functions == functions
    }

    function State(): World
      reads this, store
    {
      World(store.clients, trace)
    }

    /** `Controller(...)`: every media tool is registered. */
    constructor (store: Mongo.ClientStore, promoter: Promoter, functions: Nebuia.NebuiaFunctions, caller: ModelCalling.ToolCaller)
      requires functions.db == store
      ensures Valid() && trace == []
      ensures this.store == store && this.promoter == promoter && this.functions == functions && this.caller == caller
      ensures mediaHandler.functionMap == Nebuia.GetMediaTools()
    {
      this.store := store;
      this.promoter := promoter;
      this.functions := functions;
      this.caller := caller;
      textHandler := new TextHandler.TextInputHandler(caller);
      mediaHandler := new GenericHandler.GenericMediaHandler(functions);
      trace := [];
      new;
      InitializeMediaHandler(None);
    }

    /**
     * `initialize_media_handler(media_functions, function_names)`: a fresh
     * handler with exactly the listed tools that exist, or with all of them
     * when no names are given.
     */
    method InitializeMediaHandler(functionNames: Option<seq<string>>)
      requires functions.db == store && textHandler.toolCaller == caller
      modifies this
      ensures Valid() && fresh(mediaHandler) && trace == old(trace)
      ensures mediaHandler.functionMap == Registered(functionNames)
    {
      var tools := Nebuia.GetMediaTools();
      var h := new GenericHandler.GenericMediaHandler(functions);
      if functionNames.Some? && functionNames.value != [] {
        RegisterListed(h, functionNames.value, tools);
      } else {
        RegisterAll(h, tools);
      }
      mediaHandler := h;
    }

    /** The `function_names` loop: each listed name that is a tool, in order. */
    static method RegisterListed(h: GenericHandler.GenericMediaHandler, names: seq<string>, tools: map<string, Nebuia.MediaHandler>)
      requires h.functionMap == map[]
      modifies h
      ensures h.functionMap == ListedTools(names, tools)
    {
      var i := 0;
      while i < |names|
        invariant 0 <= i <= |names|
        invariant h.functionMap == ListedTools(names[..i], tools)
      {
        assert names[..i + 1][..i] == names[..i];
        if names[i] in tools {
          h.AddFunction(names[i], tools[names[i]]);
        }
        i := i + 1;
      }
      assert names[..i] == names;
    }

    /** The `all_functions.items()` loop: every tool. */
    static method RegisterAll(h: GenericHandler.GenericMediaHandler, tools: map<string, Nebuia.MediaHandler>)
      requires h.functionMap == map[]
      modifies h
      ensures h.functionMap == tools
    {
      var left := tools.Keys;
      while left != {}
        invariant left <= tools.Keys
        invariant h.functionMap == map n | n in tools.Keys - left :: tools[n]
        decreases |left|
      {
        var name :| name in left;
        RegisterOneMore(tools, tools.Keys - left, name);
        assert (tools.Keys - left) + {name} == tools.Keys - (left - {name});
        h.AddFunction(name, tools[name]);
        left := left - {name};
      }
      assert tools.Keys - left == tools.Keys;
      RegisteredAll(tools);
    }

    /** `message(msg, client_id)` */
    method Message(msg: string, clientId: string)
      modifies this
      ensures trace == old(trace) + [Sent(clientId, msg)]
      ensures mediaHandler == old(mediaHandler)
    {
      trace := trace + [Sent(clientId, msg)];
    }

    /** `get_report_by_client(client_id)`: the record's `report`; `None` is the exception of a missing record. */
    method GetReportByClient(clientId: string) returns (r: Option<string>)
      ensures r.Some? <==> clientId in store.clients
      ensures r.Some? ==> r.value == store.clients[clientId].report
    {
      var client := store.ClientExist(clientId);
      if client.None? {
        return None;
      }
      return Some(client.value.report);
    }

    /**
     * `next_step(client_id, step_details)`: completes the step, then sends the
     * instruction of the step active in the updated record, or "Has terminado.".
     */
    method NextStep(clientId: string, step: Mongo.Step)
      modifies this, store
      ensures store.clients == Mongo.MarkClient(old(store.clients), clientId, step.functionName)
      ensures trace == old(trace) + [Sent(clientId, NextMessage(promoter, store.clients, clientId))]
      ensures mediaHandler == old(mediaHandler)
    {
      var _ := store.MarkStepAsComplete(clientId, step.functionName);
      var next := store.GetStepByClient(clientId);
      if next.Some? {
        Message(Describe(promoter, next.value, "", None), clientId);
      } else {
        Message(FinishedMessage, clientId);
      }
    }

    /** Runs a handler's effects for `client_id` on `step_details`, in order. */
    method PerformEffects(clientId: string, step: Mongo.Step, effects: seq<Effect>)
      modifies this, store
      ensures State() == RunEffects(promoter, old(State()), clientId, step, effects)
      ensures mediaHandler == old(mediaHandler)
    {
      ghost var w0 := State();
      var i := 0;
      while i < |effects|
        invariant 0 <= i <= |effects|
        invariant State() == RunEffects(promoter, w0, clientId, step, effects[..i])
        invariant mediaHandler == old(mediaHandler)
      {
        assert effects[..i + 1][..i] == effects[..i];
        match effects[i] {
          case Say(body) => Message(body, clientId);
          case Instruct(s, userInput, data) => Message(Describe(promoter, s, userInput, data), clientId);
          case Advance => NextStep(clientId, step);
        }
        i := i + 1;
      }
      assert effects[..i] == effects;
    }

    /**
     * `handle_text_input(user_response, step_details, client_id)`; `raised`
     * is an exception, after which nothing further is sent.
     */
    method HandleTextInput(userResponse: string, step: Mongo.Step, clientId: string) returns (raised: bool)
      requires Valid()
      modifies this, store, caller
      ensures Valid() && mediaHandler == old(mediaHandler)
      ensures step.requireImages ==> (!raised && caller.State() == old(caller.State())
        && store.clients == old(store.clients)
        && trace == old(trace) + [Sent(clientId, Describe(promoter, step, userResponse, None))])
      ensures !step.requireImages && clientId !in old(store.clients) ==>
        raised && State() == old(State()) && caller.State() == old(caller.State())
      ensures !step.requireImages && clientId in old(store.clients) ==>
        var (d, e) := ModelCalling.ProcessInputToolSpec(
          caller.cfg, userResponse, step.availableFunctions, old(store.clients[clientId].report), old(caller.State()));
        && caller.State() == e
        && (raised <==> d.Raised?)
        && (raised ==> State() == old(State()))
        && (!raised ==> State() == RunEffects(promoter, old(State()), clientId, step,
              TextHandler.ReplyEffects(step, userResponse, d).value))
    {
      var report := GetReportByClient(clientId);
      var effects := textHandler.HandleTextInput(userResponse, step, report);
      if effects.None? {
        return true;
      }
      PerformEffects(clientId, step, effects.value);
      return false;
    }

    /** `process_media(request, step_details, client_id)`: records the media URL on the step. */
    method ProcessMedia(step: Mongo.Step, clientId: string, mediaUrl: string)
      modifies store
      ensures store.clients == Mongo.PushClient(old(store.clients), clientId, step.functionName, mediaUrl)
    {
      var _ := store.AddImageToStep(clientId, step.functionName, mediaUrl);
    }

    /**
     * `handle_media_upload(step_details, client_id)`: for a step that wants
     * images, re-reads the active step and runs the media response on it.
     */
    method HandleMediaUpload(step: Mongo.Step, clientId: string) returns (raised: bool)
      requires Valid()
      modifies this, store, functions.nebuia
      ensures Valid() && mediaHandler == old(mediaHandler)
      ensures !step.requireImages ==> (!raised && store.clients == old(store.clients)
        && functions.nebuia.headers == old(functions.nebuia.headers)
        && trace == old(trace) + [Sent(clientId, NoMediaMessage)])
      ensures step.requireImages && Mongo.ClientStep(old(store.clients), clientId).None? ==>
        raised && State() == old(State())
      ensures step.requireImages && Mongo.ClientStep(old(store.clients), clientId).Some? ==>
        var current := Mongo.ClientStep(old(store.clients), clientId).value;
        && (current.functionName == "" ==> (!raised && store.clients == old(store.clients)
              && trace == old(trace) + [Sent(clientId, GenericHandler.NoFunctionMessage)]))
        && (current.functionName != "" ==> (|trace| > |old(trace)|
              && trace[|old(trace)|] == Sent(clientId, GenericHandler.ProcessingMessage)))
        && (current.functionName != "" && current.functionName !in mediaHandler.functionMap ==>
              !raised && store.clients == old(store.clients)
              && trace == old(trace) + [Sent(clientId, GenericHandler.ProcessingMessage)])
        && (current.functionName != "" && current.functionName in mediaHandler.functionMap ==>
              var o := Nebuia.MediaToolOutcome(functions.Env(), mediaHandler.functionMap[current.functionName],
                old(store.clients), old(functions.nebuia.headers), current, clientId);
              && raised == o.reply.None? && functions.nebuia.headers == o.headers
              && State() == RunEffects(promoter, World(o.clients, old(trace)), clientId, current,
                   [Say(GenericHandler.ProcessingMessage)] + GenericHandler.MediaEffects(o.reply)))
    {
      if !step.requireImages {
        Message(NoMediaMessage, clientId);
        return false;
      }
      var current := store.GetStepByClient(clientId);
      if current.None? {
        return true;
      }
      ghost var w0 := State();
      var effects, failed := mediaHandler.GenerateMediaResponse(current.value, clientId);
      ghost var w1 := State();
      PerformEffects(clientId, current.value, effects);
      RunEffectsTrace(promoter, w1, clientId, current.value, effects);
      if current.value.functionName == "" || current.value.functionName !in mediaHandler.functionMap {
        MessagesKeepClients(promoter, w1, clientId, current.value, effects);
      }
      raised := failed;
    }

    /** `init_first_contact(to, hello, instruction)`: the greeting, then the instruction. */
    method InitFirstContact(to: string, hello: string, instruction: string)
      modifies this
      ensures trace == old(trace) + [Sent(to, hello), Sent(to, instruction)]
      ensures mediaHandler == old(mediaHandler)
    {
      Message(hello, to);
      Message(instruction, to);
    }

    /**
     * `handle_button_message(client_id)`: promotes the staged steps, then
     * greets the client with the instruction of the step active after the
     * promotion. Without a record or an active step it raises.
     */
    method HandleButtonMessage(clientId: string) returns (raised: bool)
      requires Valid()
      modifies this, store
      ensures Valid() && mediaHandler == old(mediaHandler)
      ensures store.clients == Mongo.PromoteClient(old(store.clients), clientId)
      ensures raised <==> Mongo.ClientStep(store.clients, clientId).None?
      ensures raised ==> trace == old(trace)
      ensures !raised ==> trace == old(trace) + [Sent(clientId, promoter.hello),
        Sent(clientId, Describe(promoter, Mongo.ClientStep(store.clients, clientId).value, "", None))]
    {
      var missing, _ := store.SetStepsToClient(clientId);
      if missing {
        return true;
      }
      var step := store.GetStepByClient(clientId);
      if step.None? {
        return true;
      }
      var hello := promoter.hello;
      var instruction := Describe(promoter, step.value, "", None);
      InitFirstContact(clientId, hello, instruction);
      return false;
    }

    /** `handle_empty_steps(client_id, user_response)`: the generic conversation's reply. */
    method HandleEmptySteps(clientId: string, userResponse: string)
      modifies this
      ensures trace == old(trace) + [Sent(clientId, promoter.genericConversation(userResponse))]
      ensures mediaHandler == old(mediaHandler)
    {
      Message(promoter.genericConversation(userResponse), clientId);
    }
  }
}
