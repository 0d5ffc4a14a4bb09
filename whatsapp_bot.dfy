/**
 * main.py: the webhook routes. `/whatsapp` picks the button, empty-journey,
 * media or text path for an incoming message; `/init/contact` registers a
 * client and stages their journey; `/remove/contact` deletes the record.
 * The Flask request is a value, and the controller is one configured
 * controller.
 */
module WhatsAppBot {
  import opened Wrappers
  import opened PyText
  import Mongo
  import Controller
  import GenericHandler
  import Nebuia
  import ModelCalling
  import TextHandler
  import HandlerEffects

  /** The form fields `reply_whatsapp` reads: `WaId`, `Body`, `MessageType`, `NumMedia` and `MediaUrl0`. */
  datatype Request = Request(waId: string, body: string, messageType: string, numMedia: Option<string>, mediaUrl: string)

  const AdditionalInfoMessage := "Tambíen puedes preguntar cualquier duda antes de iniciar tu proceso, estámos para atenderte."

  /** The key of a contact's record: their number behind the `521` prefix. */
  function ContactId(clientId: string): (r: string)
    ensures |r| == 3 + |clientId| && r[..3] == "521" && r[3..] == clientId
  {
    "521" + clientId
  }

  /** `int(media) if media is not None else 0`; `None` is the exception of a malformed count. */
  function NumMedia(media: Option<string>): (r: Option<int>)
    ensures media.None? ==> r == Some(0)
    ensures media.Some? ==> r == ParseInt(media.value)
  {
    if media.None? then Some(0) else ParseInt(media.value)
  }

  /** The paths of `reply_whatsapp`; `NoClient`, `BadNumMedia` and `NoStep` raise. */
  datatype Route =
    | Button
    | NoClient
    | EmptySteps
    | BadNumMedia
    | NoStep
    | Media(step: Mongo.Step)
    | Text(step: Mongo.Step)

  /**
   * The path for a request on the collection: a button first, whatever the
   * record; then a missing record or an empty journey; then the media count
   * and the active step decide between media and text.
   */
  function RouteOf(req: Request, clients: map<string, Mongo.ClientRecord>): (r: Route)
    ensures r.Button? <==> req.messageType == "button"
    ensures r.NoClient? <==> req.messageType != "button" && req.waId !in clients
    ensures r.EmptySteps? <==> (req.messageType != "button" && req.waId in clients
      && |clients[req.waId].steps| == 0)
    ensures r.BadNumMedia? <==> (req.messageType != "button" && req.waId in clients
      && |clients[req.waId].steps| > 0 && NumMedia(req.numMedia).None?)
    ensures r.NoStep? <==> (req.messageType != "button" && req.waId in clients
      && |clients[req.waId].steps| > 0 && NumMedia(req.numMedia).Some?
      && Mongo.ActiveStep(clients[req.waId].steps).None?)
    ensures r.Media? || r.Text? ==> (req.waId in clients && Some(r.step) == Mongo.ActiveStep(clients[req.waId].steps)
      && NumMedia(req.numMedia).Some?)
    ensures r.Media? <==> (req.messageType != "button" && req.waId in clients && |clients[req.waId].steps| > 0
      && NumMedia(req.numMedia).Some? && Mongo.ActiveStep(clients[req.waId].steps).Some?
      && NumMedia(req.numMedia).value > 0 && Mongo.ActiveStep(clients[req.waId].steps).value.requireImages)
    ensures r.Text? <==> (req.messageType != "button" && req.waId in clients && |clients[req.waId].steps| > 0
      && NumMedia(req.numMedia).Some? && Mongo.ActiveStep(clients[req.waId].steps).Some?
      && !(NumMedia(req.numMedia).value > 0 && Mongo.ActiveStep(clients[req.waId].steps).value.requireImages))
  {
    if req.messageType == "button" then Button
    else if req.waId !in clients then NoClient
    else if |clients[req.waId].steps| == 0 then EmptySteps
    else
      match NumMedia(req.numMedia)
      case None => BadNumMedia
      case Some(n) =>
        match Mongo.ActiveStep(clients[req.waId].steps)
        case None => NoStep
        case Some(step) => if n > 0 && step.requireImages then Media(step) else Text(step)
  }

  /** A message without a `NumMedia` field counts as no media and takes the text path, even on an image step. */
  lemma MissingCountIsText(req: Request, clients: map<string, Mongo.ClientRecord>)
    requires req.messageType != "button" && req.waId in clients && |clients[req.waId].steps| > 0
    requires Mongo.ActiveStep(clients[req.waId].steps).Some?
    requires req.numMedia.None?
    ensures RouteOf(req, clients) == Text(Mongo.ActiveStep(clients[req.waId].steps).value)
  {
  }

  class WhatsAppBot {
    const db: Mongo.ClientStore
    const controller: Controller.Controller
    /** `format_welcome_message(institution)` for the configured institution and website. */
    const welcome: string

    ghost predicate Valid()
      reads this, controller
    {
      controller.store == db && controller.Valid()
    }

    constructor (controller: Controller.Controller, welcome: string)
      ensures this.db == controller.store && this.controller == controller && this.welcome == welcome
    {
      this.db := controller.store;
      this.controller := controller;
      this.welcome := welcome;
    }

    /** `reply_whatsapp()`: the path taken, and whether it raised. */
    method ReplyWhatsapp(req: Request) returns (route: Route, raised: bool)
      requires Valid()
      modifies db, controller, controller.caller, controller.functions.nebuia
      ensures Valid()
      ensures route == RouteOf(req, old(db.clients))
      ensures route.NoClient? || route.BadNumMedia? || route.NoStep? ==>
        raised && db.clients == old(db.clients) && controller.trace == old(controller.trace)
      ensures route.Button? ==> (db.clients == Mongo.PromoteClient(old(db.clients), req.waId)
        && (raised <==> Mongo.ClientStep(db.clients, req.waId).None?)
        && (raised ==> controller.trace == old(controller.trace))
        && (!raised ==> controller.trace == old(controller.trace) + [Controller.Sent(req.waId, controller.promoter.hello),
              Controller.Sent(req.waId, Controller.Describe(controller.promoter, Mongo.ClientStep(db.clients, req.waId).value, "", None))]))
      ensures route.EmptySteps? ==> (!raised && db.clients == old(db.clients)
        && controller.trace == old(controller.trace) + [Controller.Sent(req.waId, controller.promoter.genericConversation(req.body))])
      ensures route.Text? && route.step.requireImages ==> (!raised && db.clients == old(db.clients)
        && controller.trace == old(controller.trace)
          + [Controller.Sent(req.waId, Controller.Describe(controller.promoter, route.step, req.body, None))])
      ensures route.Text? && !route.step.requireImages ==>
        var (d, e) := ModelCalling.ProcessInputToolSpec(controller.caller.cfg, req.body, route.step.availableFunctions,
          old(db.clients)[req.waId].report, old(controller.caller.State()));
        && controller.caller.State() == e
        && (raised <==> d.Raised?)
        && (raised ==> db.clients == old(db.clients) && controller.trace == old(controller.trace))
        && (!raised ==> controller.State() == Controller.RunEffects(controller.promoter, old(controller.State()), req.waId,
              route.step, TextHandler.ReplyEffects(route.step, req.body, d).value))
      ensures route.Media? ==>
        var pushed := Mongo.PushClient(old(db.clients), req.waId, route.step.functionName, req.mediaUrl);
        var current := Mongo.ClientStep(pushed, req.waId);
        && current.Some? && current.value.functionName == route.step.functionName
        && (route.step.functionName != "" && route.step.functionName !in controller.mediaHandler.functionMap ==>
              !raised && db.clients == pushed
              && controller.trace == old(controller.trace) + [Controller.Sent(req.waId, GenericHandler.ProcessingMessage)])
        && (route.step.functionName != "" && route.step.functionName in controller.mediaHandler.functionMap ==>
              var o := Nebuia.MediaToolOutcome(controller.functions.Env(), controller.mediaHandler.functionMap[route.step.functionName],
                pushed, old(controller.functions.nebuia.headers), current.value, req.waId);
              && raised == o.reply.None?
              && controller.functions.nebuia.headers == o.headers
              && controller.State() == Controller.RunEffects(controller.promoter, Controller.World(o.clients, old(controller.trace)),
                   req.waId, current.value, [HandlerEffects.Say(GenericHandler.ProcessingMessage)] + GenericHandler.MediaEffects(o.reply)))
      ensures route.Media? && route.step.functionName != "" ==> (|controller.trace| > |old(controller.trace)|
        && controller.trace[|old(controller.trace)|] == Controller.Sent(req.waId, GenericHandler.ProcessingMessage))
      ensures route.Media? && route.step.functionName == "" ==> (!raised
        && db.clients == Mongo.PushClient(old(db.clients), req.waId, "", req.mediaUrl)
        && controller.trace == old(controller.trace) + [Controller.Sent(req.waId, GenericHandler.NoFunctionMessage)])
    {
      route := RouteOf(req, db.clients);
      if req.messageType == "button" {
        assert route == Button;
        raised := controller.HandleButtonMessage(req.waId);
        return;
      }
      var client := db.ClientExist(req.waId);
      if client.None? {
        assert route == NoClient;
        return route, true;
      }
      if |client.value.steps| == 0 {
        assert route == EmptySteps;
        controller.HandleEmptySteps(req.waId, req.body);
        return route, false;
      }
      var numMedia := NumMedia(req.numMedia);
      if numMedia.None? {
        assert route == BadNumMedia;
        return route, true;
      }
      var step := db.GetStepByClient(req.waId);
      if step.None? {
        assert route == NoStep;
        return route, true;
      }
      if numMedia.value > 0 && step.value.requireImages {
        assert route == Media(step.value);
        raised := ReplyMedia(req, step.value);
      } else {
        assert route == Text(step.value);
        raised := ReplyText(req, step.value);
      }
    }

    /** The media path of `reply_whatsapp`: the URL is recorded on the active step, then the upload is handled. */
    method ReplyMedia(req: Request, step: Mongo.Step) returns (raised: bool)
      requires Valid()
      requires req.waId in db.clients && Mongo.ActiveStep(db.clients[req.waId].steps) == Some(step) && step.requireImages
      modifies db, controller, controller.functions.nebuia
      ensures Valid()
      ensures var pushed := Mongo.PushClient(old(db.clients), req.waId, step.functionName, req.mediaUrl);
        var current := Mongo.ClientStep(pushed, req.waId);
        && current.Some? && current.value.functionName == step.functionName
        && (step.functionName == "" ==> (!raised && db.clients == pushed
              && controller.trace == old(controller.trace) + [Controller.Sent(req.waId, GenericHandler.NoFunctionMessage)]))
        && (step.functionName != "" ==> (|controller.trace| > |old(controller.trace)|
              && controller.trace[|old(controller.trace)|] == Controller.Sent(req.waId, GenericHandler.ProcessingMessage)))
        && (step.functionName != "" && step.functionName !in controller.mediaHandler.functionMap ==>
              !raised && db.clients == pushed
              && controller.trace == old(controller.trace) + [Controller.Sent(req.waId, GenericHandler.ProcessingMessage)])
        && (step.functionName != "" && step.functionName in controller.mediaHandler.functionMap ==>
              var o := Nebuia.MediaToolOutcome(controller.functions.Env(), controller.mediaHandler.functionMap[step.functionName],
                pushed, old(controller.functions.nebuia.headers), current.value, req.waId);
              && raised == o.reply.None?
              && controller.functions.nebuia.headers == o.headers
              && controller.State() == Controller.RunEffects(controller.promoter, Controller.World(o.clients, old(controller.trace)),
                   req.waId, current.value, [HandlerEffects.Say(GenericHandler.ProcessingMessage)] + GenericHandler.MediaEffects(o.reply)))
    {
      ghost var before := db.clients;
      controller.ProcessMedia(step, req.waId, req.mediaUrl);
      Mongo.PushKeepsActiveStep(before[req.waId].steps, req.mediaUrl);
      raised := controller.HandleMediaUpload(step, req.waId);
    }

    /** The text path of `reply_whatsapp`: the text input is handled on the active step. */
    method ReplyText(req: Request, step: Mongo.Step) returns (raised: bool)
      requires Valid()
      requires req.waId in db.clients
      modifies db, controller, controller.caller
      ensures Valid()
      ensures step.requireImages ==> (!raised && db.clients == old(db.clients)
        && controller.trace == old(controller.trace)
          + [Controller.Sent(req.waId, Controller.Describe(controller.promoter, step, req.body, None))])
      ensures !step.requireImages ==>
        var (d, e) := ModelCalling.ProcessInputToolSpec(controller.caller.cfg, req.body, step.availableFunctions,
          old(db.clients)[req.waId].report, old(controller.caller.State()));
        && controller.caller.State() == e
        && (raised <==> d.Raised?)
        && (raised ==> db.clients == old(db.clients) && controller.trace == old(controller.trace))
        && (!raised ==> controller.State() == Controller.RunEffects(controller.promoter, old(controller.State()), req.waId,
              step, TextHandler.ReplyEffects(step, req.body, d).value))
    {
      raised := controller.HandleTextInput(req.body, step, req.waId);
    }

    /**
     * `init_contact()`: the record `"521" + client_id` is created and its
     * journey staged only when it does not exist; the welcome and the
     * additional-information message are always sent, in that order.
     */
    method InitContact(clientId: string, steps: seq<Mongo.Step>, report: string)
      requires Valid()
      modifies db, controller
      ensures Valid()
      ensures var to := ContactId(clientId);
        && (to in old(db.clients) ==> db.clients == old(db.clients))
        && (to !in old(db.clients) ==> db.clients == old(db.clients)[to := Mongo.ClientRecord([], report, Some(steps))])
        && controller.trace == old(controller.trace) + [Controller.Sent(to, welcome), Controller.Sent(to, AdditionalInfoMessage)]
    {
      var to := ContactId(clientId);
      var client := db.ClientExist(to);
      if client.None? {
        var _ := db.CreateClient(to, report);
        var _ := db.SetStepsToClientTemporal(to, steps);
      }
      controller.Message(welcome, to);
      controller.Message(AdditionalInfoMessage, to);
    }

    /** `remove_contact()`: deletes the record `"521" + client_id`; nothing else changes. */
    method RemoveContact(clientId: string)
      modifies db
      ensures db.clients == old(db.clients) - {ContactId(clientId)}
      ensures ContactId(clientId) !in db.clients
    {
      var _ := db.RemoveItem(ContactId(clientId));
    }
  }
}
