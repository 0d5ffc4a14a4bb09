/**
 * The outcome record of implementations/response.py, and the five-field
 * outcome that the text handler reads from a tool's reply.
 */
module Response {
  import opened Wrappers
  import opened Json

  /** `StructuredResponse(status, message, data=None)` */
  datatype StructuredResponse = StructuredResponse(status: bool, message: string, data: Option<map<string, Json>>) {

    /** `asdict(self)`, with the `data` key deleted when there is no data. */
    function ToDict(): (r: map<string, Json>)
      ensures "status" in r && r["status"] == JBool(status)
      ensures "message" in r && r["message"] == JStr(message)
      ensures "data" in r <==> data.Some?
      ensures data.Some? ==> r["data"] == JObj(data.value)
      ensures r.Keys <= {"status", "message", "data"}
    {
      var base := map["status" := JBool(status), "message" := JStr(message)];
      if data.None? then base else base["data" := JObj(data.value)]
    }
  }

  /** `StructuredResponse.error(message)` */
  function Error(message: string): (r: StructuredResponse)
    ensures !r.status && r.message == message && r.data.None?
  {
    StructuredResponse(false, message, None)
  }

  /** `StructuredResponse.success(message, data)` */
  function Success(message: string, data: Option<map<string, Json>>): (r: StructuredResponse)
    ensures r.status && r.message == message && r.data == data
  {
    StructuredResponse(true, message, data)
  }

  /** An error serialises to exactly a false status and its message. */
  lemma ErrorToDict(message: string)
    ensures Error(message).ToDict() == map["status" := JBool(false), "message" := JStr(message)]
  {
  }

  /** A success without data serialises to exactly a true status and its message. */
  lemma SuccessToDictWithoutData(message: string)
    ensures Success(message, None).ToDict().Keys == {"status", "message"}
  {
  }

  /**
   * What a tool hands back to the text handler: besides `status` and
   * `message`, whether the step is complete and whether the reply is to be
   * phrased by the language model, with optional data for that phrasing.
   */
  datatype ToolOutcome = ToolOutcome(
    status: bool, message: string, markAsComplete: bool, responseWithLlm: bool, data: Option<Json>)
}
