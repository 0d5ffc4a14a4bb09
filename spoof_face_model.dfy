/**
 * The face-liveness result records of models/spoof_face.py: a score that must
 * be a genuine integer (a boolean is refused) and a status flag.
 */
module SpoofFaceModel {
  import opened Wrappers
  import opened Json

  datatype Payload = Payload(score: int, status: bool) {

    static function FromDict(obj: Json): (r: Option<Payload>)
      ensures r.Some? <==> obj.JObj? && Get(obj.fields, "score").JInt? && Get(obj.fields, "status").JBool?
      ensures obj.JObj? && Get(obj.fields, "score").JBool? ==> r.None?
      ensures r.Some? ==> r.value == Payload(Get(obj.fields, "score").intValue, Get(obj.fields, "status").boolValue)
    {
      if !obj.JObj? then None
      else
        var score :- FromInt(Get(obj.fields, "score"));
        var status :- FromBool(Get(obj.fields, "status"));
        Some(Payload(score, status))
    }

    function ToDict(): (r: Json)
      ensures r.JObj? && r.fields.Keys == {"score", "status"}
    {
      JObj(map["score" := JInt(score), "status" := JBool(status)])
    }
  }

  lemma PayloadRoundTrip(x: Payload)
    ensures Payload.FromDict(x.ToDict()) == Some(x)
  {
  }

  datatype FaceSpoofing = FaceSpoofing(status: bool, payload: Payload) {

    static function FromDict(obj: Json): (r: Option<FaceSpoofing>)
      ensures !obj.JObj? ==> r.None?
      ensures r.Some? <==> obj.JObj? && Get(obj.fields, "status").JBool? && Payload.FromDict(Get(obj.fields, "payload")).Some?
      ensures r.Some? ==> r.value.payload == Payload.FromDict(Get(obj.fields, "payload")).value
    {
      if !obj.JObj? then None
      else
        var status :- FromBool(Get(obj.fields, "status"));
        var payload :- Payload.FromDict(Get(obj.fields, "payload"));
        Some(FaceSpoofing(status, payload))
    }

    function ToDict(): (r: Json)
      ensures r.JObj? && r.fields.Keys == {"status", "payload"}
    {
      JObj(map["status" := JBool(status), "payload" := payload.ToDict()])
    }
  }

  lemma FaceSpoofingRoundTrip(x: FaceSpoofing)
    ensures FaceSpoofing.FromDict(x.ToDict()) == Some(x)
  {
    var f := x.ToDict().fields;
    assert Get(f, "status") == JBool(x.status);
    assert Get(f, "payload") == x.payload.ToDict();
  }
}
