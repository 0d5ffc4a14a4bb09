/**
 * database/mongo.py: the per-client step journey. A client record holds an
 * ordered list of steps, each with a `complete` flag and an `images` list,
 * the report it belongs to, and a `steps_temporal` staging slot. The active
 * step is the first incomplete one; the positional updates act on the first
 * step whose `function` is the given name.
 */
module Mongo {
  import opened Wrappers

  /** One step of a journey, as stored under `steps`. */
  datatype Step = Step(
    functionName: string,
    complete: bool,
    images: seq<string>,
    requireImages: bool,
    accept: seq<string>,
    availableFunctions: string,
    value: string,
    summary: string)

  /** A document of the `clients` collection. */
  datatype ClientRecord = ClientRecord(steps: seq<Step>, report: string, stepsTemporal: Option<seq<Step>>)

  /** The index of the first step named `fn` (the element `steps.$` designates). */
  function FirstWith(steps: seq<Step>, fn: string): (r: Option<nat>)
    ensures r.Some? ==> (r.value < |steps| && steps[r.value].functionName == fn
      && forall j :: 0 <= j < r.value ==> steps[j].functionName != fn)
    ensures r.None? ==> forall j :: 0 <= j < |steps| ==> steps[j].functionName != fn
    decreases |steps|
  {
    if |steps| == 0 then None
    else if steps[0].functionName == fn then Some(0)
    else
      match FirstWith(steps[1..], fn)
      case None => None
      case Some(i) => Some(i + 1)
  }

  /** The index of the first incomplete step from index `lo` on (the `$unwind`/`$match`/`$limit` pipeline). */
  function FirstIncompleteFrom(steps: seq<Step>, lo: nat): (r: Option<nat>)
    requires lo <= |steps|
    ensures r.Some? ==> (lo <= r.value < |steps| && !steps[r.value].complete
      && forall j :: lo <= j < r.value ==> steps[j].complete)
    ensures r.None? ==> forall j :: lo <= j < |steps| ==> steps[j].complete
    decreases |steps| - lo
  {
    if lo == |steps| then None
    else if !steps[lo].complete then Some(lo)
    else FirstIncompleteFrom(steps, lo + 1)
  }

  /** The active step: the first one with `complete == False`. */
  function ActiveStep(steps: seq<Step>): (r: Option<Step>)
    ensures r.Some? <==> exists j :: 0 <= j < |steps| && !steps[j].complete
    ensures r.Some? ==> exists i :: (0 <= i < |steps| && r.value == steps[i] && !steps[i].complete
      && forall j :: 0 <= j < i ==> steps[j].complete)
  {
    match FirstIncompleteFrom(steps, 0)
    case None => None
    case Some(i) => Some(steps[i])
  }

  /** `{"$set": {"steps.$.complete": True}}` on the step list. */
  function MarkComplete(steps: seq<Step>, fn: string): seq<Step> {
    match FirstWith(steps, fn)
    case None => steps
    case Some(i) => steps[i := steps[i].(complete := true)]
  }

  /** `{"$push": {"steps.$.images": url}}` on the step list. */
  function PushImage(steps: seq<Step>, fn: string, url: string): seq<Step> {
    match FirstWith(steps, fn)
    case None => steps
    case Some(i) => steps[i := steps[i].(images := steps[i].images + [url])]
  }

  /** `{"$set": {"steps.$.images": []}}` on the step list. */
  function ResetImages(steps: seq<Step>, fn: string): seq<Step> {
    match FirstWith(steps, fn)
    case None => steps
    case Some(i) => steps[i := steps[i].(images := [])]
  }

  /** Whether completing `fn` modifies the document (`modified_count > 0`): only a step still incomplete. */
  predicate MarkModifies(steps: seq<Step>, fn: string) {
    FirstWith(steps, fn).Some? && !steps[FirstWith(steps, fn).value].complete
  }

  /** Whether resetting the images of `fn` modifies the document: only a non-empty list. */
  predicate ResetModifies(steps: seq<Step>, fn: string) {
    FirstWith(steps, fn).Some? && steps[FirstWith(steps, fn).value].images != []
  }

  /** Whether an update names a step of the client's journey (the `steps.function` filter matches). */
  predicate Matches(clients: map<string, ClientRecord>, id: string, fn: string) {
    id in clients && FirstWith(clients[id].steps, fn).Some?
  }

  /** The collection after completing `fn` for `id`: unchanged unless the filter matches. */
  function MarkClient(clients: map<string, ClientRecord>, id: string, fn: string): (r: map<string, ClientRecord>)
    ensures r.Keys == clients.Keys
    ensures forall k :: k in clients && k != id ==> r[k] == clients[k]
    ensures !Matches(clients, id, fn) ==> r == clients
    ensures id in clients ==> r[id].report == clients[id].report && r[id].stepsTemporal == clients[id].stepsTemporal
    ensures Matches(clients, id, fn) ==> |r[id].steps| == |clients[id].steps|
  {
    if Matches(clients, id, fn) then clients[id := clients[id].(steps := MarkComplete(clients[id].steps, fn))] else clients
  }

  /** The collection after pushing `url` onto the images of `fn` for `id`. */
  function PushClient(clients: map<string, ClientRecord>, id: string, fn: string, url: string): (r: map<string, ClientRecord>)
    ensures r.Keys == clients.Keys
    ensures forall k :: k in clients && k != id ==> r[k] == clients[k]
    ensures !Matches(clients, id, fn) ==> r == clients
    ensures id in clients ==> r[id].report == clients[id].report && r[id].stepsTemporal == clients[id].stepsTemporal
    ensures Matches(clients, id, fn) ==> |r[id].steps| == |clients[id].steps|
  {
    if Matches(clients, id, fn) then clients[id := clients[id].(steps := PushImage(clients[id].steps, fn, url))] else clients
  }

  /** The collection after resetting the images of `fn` for `id`. */
  function ResetClient(clients: map<string, ClientRecord>, id: string, fn: string): (r: map<string, ClientRecord>)
    ensures r.Keys == clients.Keys
    ensures forall k :: k in clients && k != id ==> r[k] == clients[k]
    ensures !Matches(clients, id, fn) ==> r == clients
    ensures id in clients ==> r[id].report == clients[id].report && r[id].stepsTemporal == clients[id].stepsTemporal
    ensures Matches(clients, id, fn) ==> |r[id].steps| == |clients[id].steps|
  {
    if Matches(clients, id, fn) then clients[id := clients[id].(steps := ResetImages(clients[id].steps, fn))] else clients
  }

  /** The active step of client `id`, as `get_step_by_client` reads it: `None` for an unknown client. */
  function ClientStep(clients: map<string, ClientRecord>, id: string): (r: Option<Step>)
    ensures id !in clients ==> r.None?
    ensures id in clients ==> r == ActiveStep(clients[id].steps)
  {
    if id in clients then ActiveStep(clients[id].steps) else None
  }

  /** The collection after promoting the staged steps of `id`: unchanged without staged steps. */
  function PromoteClient(clients: map<string, ClientRecord>, id: string): (r: map<string, ClientRecord>)
    ensures r.Keys == clients.Keys
    ensures forall k :: k in clients && k != id ==> r[k] == clients[k]
    ensures id in clients && clients[id].stepsTemporal.Some? ==>
      r[id] == ClientRecord(clients[id].stepsTemporal.value, clients[id].report, None)
    ensures !(id in clients && clients[id].stepsTemporal.Some?) ==> r == clients
  {
    if id in clients && clients[id].stepsTemporal.Some?
    then clients[id := clients[id].(steps := clients[id].stepsTemporal.value, stepsTemporal := None)]
    else clients
  }

  // properties of the step operations

  /**
   * Completion sets `complete` on the first step named `fn` and on no other:
   * the length, the order and every other step are unchanged.
   */
  lemma MarkCompleteTargetsFirst(steps: seq<Step>, fn: string)
    ensures |MarkComplete(steps, fn)| == |steps|
    ensures FirstWith(steps, fn).None? ==> MarkComplete(steps, fn) == steps
    ensures FirstWith(steps, fn).Some? ==> var i := FirstWith(steps, fn).value;
      MarkComplete(steps, fn)[i] == steps[i].(complete := true)
      && forall j :: 0 <= j < |steps| && j != i ==> MarkComplete(steps, fn)[j] == steps[j]
  {
  }

  /** Completing twice is completing once, and the second update modifies nothing. */
  lemma MarkCompleteIdempotent(steps: seq<Step>, fn: string)
    ensures MarkComplete(MarkComplete(steps, fn), fn) == MarkComplete(steps, fn)
    ensures !MarkModifies(MarkComplete(steps, fn), fn)
  {
    if FirstWith(steps, fn).Some? {
      SameNamesSameFirst(steps, MarkComplete(steps, fn), fn);
    }
  }

  /** Two step lists with the same names, position by position, have the same first `fn`. */
  lemma {:induction false} SameNamesSameFirst(a: seq<Step>, b: seq<Step>, fn: string)
    requires |a| == |b|
    requires forall j :: 0 <= j < |a| ==> a[j].functionName == b[j].functionName
    ensures FirstWith(a, fn) == FirstWith(b, fn)
    decreases |a|
  {
    if |a| > 0 && a[0].functionName != fn {
      SameNamesSameFirst(a[1..], b[1..], fn);
    }
  }

  /**
   * Completing the active step makes the next incomplete step after it active;
   * so on [A, B, C], completing A makes B active.
   */
  lemma CompletingActiveAdvances(steps: seq<Step>, fn: string, i: nat)
    requires FirstIncompleteFrom(steps, 0) == Some(i)
    requires FirstWith(steps, fn) == Some(i)
    ensures FirstIncompleteFrom(MarkComplete(steps, fn), 0) == FirstIncompleteFrom(steps, i + 1)
  {
    var after := MarkComplete(steps, fn);
    assert after == steps[i := steps[i].(complete := true)];
    IncompleteFromAgrees(steps, after, i + 1);
    FirstIncompleteSkips(after, 0, i + 1);
  }

  /** Lists agreeing on the `complete` flags from `lo` on agree on the first incomplete step from there. */
  lemma {:induction false} IncompleteFromAgrees(a: seq<Step>, b: seq<Step>, lo: nat)
    requires |a| == |b| && lo <= |a|
    requires forall j :: lo <= j < |a| ==> a[j].complete == b[j].complete
    ensures FirstIncompleteFrom(a, lo) == FirstIncompleteFrom(b, lo)
    decreases |a| - lo
  {
    if lo < |a| && a[lo].complete {
      IncompleteFromAgrees(a, b, lo + 1);
    }
  }

  /** Complete steps from `lo` up to `hi` are skipped over. */
  lemma {:induction false} FirstIncompleteSkips(steps: seq<Step>, lo: nat, hi: nat)
    requires lo <= hi <= |steps|
    requires forall j :: lo <= j < hi ==> steps[j].complete
    ensures FirstIncompleteFrom(steps, lo) == FirstIncompleteFrom(steps, hi)
    decreases hi - lo
  {
    if lo < hi {
      FirstIncompleteSkips(steps, lo + 1, hi);
    }
  }

  /** A reset empties the image list of the first step named `fn` and changes no other step. */
  lemma ResetImagesTargetsFirst(steps: seq<Step>, fn: string)
    ensures |ResetImages(steps, fn)| == |steps|
    ensures FirstWith(steps, fn).None? ==> ResetImages(steps, fn) == steps
    ensures FirstWith(steps, fn).Some? ==> var i := FirstWith(steps, fn).value;
      ResetImages(steps, fn)[i] == steps[i].(images := [])
      && forall j :: 0 <= j < |steps| && j != i ==> ResetImages(steps, fn)[j] == steps[j]
  {
  }

  /** An image push appends at the end of the first `fn` step's list and never changes a `complete` flag. */
  lemma PushImageAppends(steps: seq<Step>, fn: string, url: string)
    ensures |PushImage(steps, fn, url)| == |steps|
    ensures forall j :: 0 <= j < |steps| ==> PushImage(steps, fn, url)[j].complete == steps[j].complete
    ensures FirstWith(steps, fn).Some? ==> var i := FirstWith(steps, fn).value;
      PushImage(steps, fn, url)[i] == steps[i].(images := steps[i].images + [url])
      && forall j :: 0 <= j < |steps| && j != i ==> PushImage(steps, fn, url)[j] == steps[j]
  {
  }

  /** Pushing and then resetting leaves the step with an empty image list, as a reset alone does. */
  lemma PushThenResetEmpties(steps: seq<Step>, fn: string, url: string)
    ensures ResetImages(PushImage(steps, fn, url), fn) == ResetImages(steps, fn)
    ensures FirstWith(steps, fn).Some? ==> ResetImages(PushImage(steps, fn, url), fn)[FirstWith(steps, fn).value].images == []
  {
    if FirstWith(steps, fn).Some? {
      SameNamesSameFirst(steps, PushImage(steps, fn, url), fn);
      var i := FirstWith(steps, fn).value;
      assert ResetImages(PushImage(steps, fn, url), fn) == steps[i := steps[i].(images := [])];
    }
  }

  /** The image operations never change which step is active. */
  lemma ImagesKeepActiveStep(steps: seq<Step>, fn: string, url: string)
    ensures FirstIncompleteFrom(PushImage(steps, fn, url), 0) == FirstIncompleteFrom(steps, 0)
    ensures FirstIncompleteFrom(ResetImages(steps, fn), 0) == FirstIncompleteFrom(steps, 0)
  {
    IncompleteFromAgrees(PushImage(steps, fn, url), steps, 0);
    IncompleteFromAgrees(ResetImages(steps, fn), steps, 0);
  }

  /** Resetting twice is resetting once. */
  lemma ResetClientIdempotent(clients: map<string, ClientRecord>, id: string, fn: string)
    ensures ResetClient(ResetClient(clients, id, fn), id, fn) == ResetClient(clients, id, fn)
  {
    if Matches(clients, id, fn) {
      var steps := clients[id].steps;
      SameNamesSameFirst(steps, ResetImages(steps, fn), fn);
      var i := FirstWith(steps, fn).value;
      assert ResetImages(ResetImages(steps, fn), fn) == ResetImages(steps, fn);
    }
  }

  /**
   * Pushing an image onto the active step's name leaves a step of that name
   * active, now holding the image at the end when it is the step pushed to.
   */
  lemma PushKeepsActiveStep(steps: seq<Step>, url: string)
    requires ActiveStep(steps).Some?
    ensures var s := ActiveStep(steps).value;
      var after := ActiveStep(PushImage(steps, s.functionName, url));
      && after.Some? && after.value.functionName == s.functionName
      && after.value.requireImages == s.requireImages
  {
    var s := ActiveStep(steps).value;
    var i := FirstIncompleteFrom(steps, 0).value;
    ImagesKeepActiveStep(steps, s.functionName, url);
    PushImageAppends(steps, s.functionName, url);
  }

  /** The `clients` collection, one record per `w_id`. */
  class ClientStore {
    var clients: map<string, ClientRecord>

    constructor ()
      ensures clients == map[]
    {
      clients := map[];
    }

    /** `client_exist(client_id)`: the record, or `None`. */
    method ClientExist(id: string) returns (r: Option<ClientRecord>)
      ensures r.Some? <==> id in clients
      ensures r.Some? ==> r.value == clients[id]
    {
      if id in clients {
        r := Some(clients[id]);
      } else {
        r := None;
      }
    }

    /**
     * `create_client(client_id, report)`: a record with that report and no steps,
     * read back. Inserting a second record with a present id leaves the first
     * one, which is what the read-back returns.
     */
    method CreateClient(id: string, report: string) returns (r: Option<ClientRecord>)
      modifies this
      ensures old(id in clients) ==> clients == old(clients) && r == Some(clients[id])
      ensures old(id !in clients) ==> clients == old(clients)[id := ClientRecord([], report, None)]
      ensures old(id !in clients) ==> r == Some(ClientRecord([], report, None))
    {
      if id !in clients {
        clients := clients[id := ClientRecord([], report, None)];
      }
      r := ClientExist(id);
    }

    /** `set_steps_to_client_temporal(client_id, steps)`: stages `steps`, leaving `steps` itself alone. */
    method SetStepsToClientTemporal(id: string, steps: seq<Step>) returns (modified: bool)
      modifies this
      ensures old(id !in clients) ==> clients == old(clients) && !modified
      ensures old(id in clients) ==> clients == old(clients)[id := old(clients[id]).(stepsTemporal := Some(steps))]
      ensures old(id in clients) ==> (modified <==> old(clients[id].stepsTemporal) != Some(steps))
    {
      if id !in clients {
        return false;
      }
      var rec := clients[id];
      modified := rec.stepsTemporal != Some(steps);
      clients := clients[id := rec.(stepsTemporal := Some(steps))];
    }

    /**
     * `set_steps_to_client(client_id)`: promotes the staged steps and removes the
     * staging slot; without staged steps nothing changes. An unknown client
     * raises (`in` on `None`), reported as `raised`.
     */
    method SetStepsToClient(id: string) returns (raised: bool, modified: bool)
      modifies this
      ensures raised <==> old(id !in clients)
      ensures modified <==> old(id in clients && clients[id].stepsTemporal.Some?)
      ensures modified ==> clients == old(clients)[id := old(clients[id]).(steps := old(clients[id].stepsTemporal.value), stepsTemporal := None)]
      ensures !modified ==> clients == old(clients)
    {
      var client := ClientExist(id);
      if client.None? {
        return true, false;
      }
      var rec := client.value;
      if rec.stepsTemporal.Some? {
        clients := clients[id := rec.(steps := rec.stepsTemporal.value, stepsTemporal := None)];
        return false, true;
      }
      return false, false;
    }

    /** `mark_step_as_complete(client_id, unique_function_name)` */
    method MarkStepAsComplete(id: string, fn: string) returns (modified: bool)
      modifies this
      ensures clients == MarkClient(old(clients), id, fn)
      ensures modified <==> id in old(clients) && MarkModifies(old(clients[id].steps), fn)
    {
      if id !in clients || FirstWith(clients[id].steps, fn).None? {
        return false;
      }
      var rec := clients[id];
      modified := MarkModifies(rec.steps, fn);
      clients := clients[id := rec.(steps := MarkComplete(rec.steps, fn))];
    }

    /** `add_image_to_step(client_id, unique_function_name, image_url)`: a push always modifies a match. */
    method AddImageToStep(id: string, fn: string, url: string) returns (modified: bool)
      modifies this
      ensures clients == PushClient(old(clients), id, fn, url)
      ensures modified <==> Matches(old(clients), id, fn)
    {
      if id !in clients || FirstWith(clients[id].steps, fn).None? {
        return false;
      }
      var rec := clients[id];
      clients := clients[id := rec.(steps := PushImage(rec.steps, fn, url))];
      modified := true;
    }

    /** `reset_images_to_step(client_id, unique_function_name)` */
    method ResetImagesToStep(id: string, fn: string) returns (modified: bool)
      modifies this
      ensures clients == ResetClient(old(clients), id, fn)
      ensures modified <==> id in old(clients) && ResetModifies(old(clients[id].steps), fn)
    {
      if id !in clients || FirstWith(clients[id].steps, fn).None? {
        return false;
      }
      var rec := clients[id];
      modified := ResetModifies(rec.steps, fn);
      clients := clients[id := rec.(steps := ResetImages(rec.steps, fn))];
    }

    /** `remove_item(client_id)`: afterwards `client_exist` finds nothing. */
    method RemoveItem(id: string) returns (deleted: bool)
      modifies this
      ensures deleted <==> old(id in clients)
      ensures clients == old(clients) - {id}
      ensures id !in clients
    {
      deleted := id in clients;
      clients := clients - {id};
    }

    /** `get_step_by_client(client_id)`: the active step, or `None` for an unknown client or a finished journey. */
    method GetStepByClient(id: string) returns (r: Option<Step>)
      ensures id !in clients ==> r.None?
      ensures id in clients ==> r == ActiveStep(clients[id].steps)
    {
      if id !in clients {
        return None;
      }
      var steps := clients[id].steps;
      var i := 0;
      while i < |steps|
        invariant 0 <= i <= |steps|
        invariant FirstIncompleteFrom(steps, i) == FirstIncompleteFrom(steps, 0)
      {
        if !steps[i].complete {
          return Some(steps[i]);
        }
        i := i + 1;
      }
      return None;
    }
  }
}
