/**
 * The proof-of-address result records of models/address.py. As in the
 * identity records, every class checks a decoded object field by field;
 * integers travel as decimal strings, and the optional `note` of a
 * verification goes through `from_union([from_str, from_none], ...)`.
 */
module AddressModel {
  import opened Wrappers
  import opened Json

  /** `from_none`: only JSON null passes. */
  function FromNone(x: Json): (r: Option<Option<string>>)
    ensures r.Some? <==> x.JNull?
    ensures r.Some? ==> r.value.None?
  {
    if x.JNull? then Some(None) else None
  }

  /**
   * `from_union(fs, x)`: the result of the first alternative that accepts `x`;
   * a failure when none does.
   */
  function FromUnion<T>(fs: seq<Json -> Option<T>>, x: Json): (r: Option<T>)
    ensures r.Some? <==> exists i :: 0 <= i < |fs| && fs[i](x).Some?
    ensures r.Some? ==> exists i :: 0 <= i < |fs| && fs[i](x) == r && forall j :: 0 <= j < i ==> fs[j](x).None?
    decreases |fs|
  {
    if |fs| == 0 then None
    else if fs[0](x).Some? then fs[0](x)
    else
      var rest := FromUnion(fs[1..], x);
      if rest.Some? then
        ghost var i :| 0 <= i < |fs| - 1 && fs[1..][i](x) == rest && forall j :: 0 <= j < i ==> fs[1..][j](x).None?;
        assert fs[i + 1](x) == rest && forall j :: 0 <= j < i + 1 ==> fs[j](x).None?;
        rest
      else
        assert forall i :: 0 < i < |fs| ==> fs[1..][i - 1](x) == fs[i](x);
        None
  }

  /** `from_str` as an alternative of the note's union. */
  function NoteFromStr(x: Json): (r: Option<Option<string>>)
    ensures r.Some? <==> x.JStr?
    ensures r.Some? ==> r.value == Some(x.strValue)
  {
    if x.JStr? then Some(Some(x.strValue)) else None
  }

  /** `from_union([from_str, from_none], x)` */
  function NoteFromJson(x: Json): (r: Option<Option<string>>)
    ensures r.Some? <==> x.JStr? || x.JNull?
    ensures x.JStr? ==> r == Some(Some(x.strValue))
    ensures x.JNull? ==> r == Some(None)
  {
    var fs := [NoteFromStr, FromNone];
    assert fs[0] == NoteFromStr && fs[1..][0] == FromNone && fs[1..][1..] == [];
    FromUnion(fs, x)
  }

  /** The encoding side of the note: a string, or null. */
  function NoteToJson(note: Option<string>): (r: Json)
    ensures r.JStr? || r.JNull?
    ensures note.Some? <==> r.JStr?
  {
    match note
    case Some(s) => JStr(s)
    case None => JNull
  }

  lemma NoteRoundTrip(note: Option<string>)
    ensures NoteFromJson(NoteToJson(note)) == Some(note)
  {
  }

  /** `key` is a decimal string on the wire. */
  datatype State = State(
    completeName: string, abbreviation: string, renapo: string, twoDigits: string,
    threeDigitsNomenclature: string, key: int)
  {
    static function FromDict(obj: Json): (r: Option<State>)
      ensures !obj.JObj? ==> r.None?
      ensures obj.JObj? && Get(obj.fields, "key").JInt? ==> r.None?
      ensures r.Some? ==> FromIntString(Get(obj.fields, "key")) == Some(r.value.key)
      ensures r.Some? ==> Get(obj.fields, "complete_name") == JStr(r.value.completeName)
    {
      if !obj.JObj? then None
      else
        var completeName :- FromStr(Get(obj.fields, "complete_name"));
        var abbreviation :- FromStr(Get(obj.fields, "abbreviation"));
        var renapo :- FromStr(Get(obj.fields, "renapo"));
        var twoDigits :- FromStr(Get(obj.fields, "two_digits"));
        var threeDigitsNomenclature :- FromStr(Get(obj.fields, "three_digits_nomenclature"));
        var key :- FromIntString(Get(obj.fields, "key"));
        Some(State(completeName, abbreviation, renapo, twoDigits, threeDigitsNomenclature, key))
    }

    function ToDict(): (r: Json)
      ensures r.JObj? && r.fields.Keys == {
          "complete_name", "abbreviation", "renapo", "two_digits", "three_digits_nomenclature", "key"}
    {
      JObj(map[
        "complete_name" := JStr(completeName),
        "abbreviation" := JStr(abbreviation),
        "renapo" := JStr(renapo),
        "two_digits" := JStr(twoDigits),
        "three_digits_nomenclature" := JStr(threeDigitsNomenclature),
        "key" := ToIntString(key)])
    }
  }

  lemma StateRoundTrip(x: State)
    ensures State.FromDict(x.ToDict()) == Some(x)
  {
    var f := x.ToDict().fields;
    assert Get(f, "complete_name") == JStr(x.completeName);
    assert Get(f, "abbreviation") == JStr(x.abbreviation);
    assert Get(f, "renapo") == JStr(x.renapo);
    assert Get(f, "two_digits") == JStr(x.twoDigits);
    assert Get(f, "three_digits_nomenclature") == JStr(x.threeDigitsNomenclature);
    assert Get(f, "key") == ToIntString(x.key);
    IntStringFieldRoundTrip(x.key);
  }

  datatype Verification = Verification(description: string, status: bool, note: Option<string>) {

    static function FromDict(obj: Json): (r: Option<Verification>)
      ensures r.Some? <==>
        obj.JObj? && Get(obj.fields, "description").JStr? && Get(obj.fields, "status").JBool?
        && (Get(obj.fields, "note").JStr? || Get(obj.fields, "note").JNull?)
      ensures r.Some? ==> (r.value.note.Some? <==> Get(obj.fields, "note").JStr?)
    {
      if !obj.JObj? then None
      else
        var description :- FromStr(Get(obj.fields, "description"));
        var status :- FromBool(Get(obj.fields, "status"));
        var note :- NoteFromJson(Get(obj.fields, "note"));
        Some(Verification(description, status, note))
    }

    /** `note` is always written, as null when there is none. */
    function ToDict(): (r: Json)
      ensures r.JObj? && r.fields.Keys == {"description", "status", "note"}
    {
      JObj(map["description" := JStr(description), "status" := JBool(status), "note" := NoteToJson(note)])
    }
  }

  lemma VerificationRoundTrip(x: Verification)
    ensures Verification.FromDict(x.ToDict()) == Some(x)
  {
    NoteRoundTrip(x.note);
  }

  function VerificationFromDict(obj: Json): Option<Verification> {
    Verification.FromDict(obj)
  }

  function VerificationToDict(x: Verification): Json {
    x.ToDict()
  }

  lemma VerificationsRoundTrip(xs: seq<Verification>)
    ensures FromList(VerificationFromDict, ToList(VerificationToDict, xs)) == Some(xs)
  {
    forall k | 0 <= k < |xs|
      ensures VerificationFromDict(VerificationToDict(xs[k])) == Some(xs[k])
    {
      VerificationRoundTrip(xs[k]);
    }
    FromListToList(VerificationFromDict, VerificationToDict, xs);
  }

  /** `zip_code`, `cp_id`, `state_id`, `office_id` and `township_zip_type_id` are decimal strings on the wire. */
  datatype Zone = Zone(
    zipCode: int, township: string, townshipType: string, municipality: string, state: string,
    city: string, cpId: int, stateId: int, officeId: int, townshipTypeId: string,
    municipalityId: string, townshipZipTypeId: int, zone: string, cityId: string)
  {
    static function FromDict(obj: Json): (r: Option<Zone>)
      ensures !obj.JObj? ==> r.None?
      ensures obj.JObj? && Get(obj.fields, "zip_code").JInt? ==> r.None?
      ensures r.Some? ==> FromIntString(Get(obj.fields, "zip_code")) == Some(r.value.zipCode)
    {
      if !obj.JObj? then None
      else
        var f := obj.fields;
        FromFields(
          Get(f, "zip_code"), Get(f, "township"), Get(f, "township_type"), Get(f, "municipality"),
          Get(f, "state"), Get(f, "city"), Get(f, "cp_id"), Get(f, "state_id"), Get(f, "office_id"),
          Get(f, "township_type_id"), Get(f, "municipality_id"), Get(f, "township_zip_type_id"),
          Get(f, "zone"), Get(f, "city_id"))
    }

    /** The field-by-field decoding of `from_dict`, given what the object holds under each key. */
    static function FromFields(
      zipCode: Json, township: Json, townshipType: Json, municipality: Json, state: Json,
      city: Json, cpId: Json, stateId: Json, officeId: Json, townshipTypeId: Json,
      municipalityId: Json, townshipZipTypeId: Json, zone: Json, cityId: Json): (r: Option<Zone>)
      ensures !zipCode.JStr? ==> r.None?
      ensures r.Some? ==> FromIntString(zipCode) == Some(r.value.zipCode)
    {
      var zipCode :- FromIntString(zipCode);
      var township :- FromStr(township);
      var townshipType :- FromStr(townshipType);
      var municipality :- FromStr(municipality);
      var state :- FromStr(state);
      var city :- FromStr(city);
      var cpId :- FromIntString(cpId);
      var stateId :- FromIntString(stateId);
      var officeId :- FromIntString(officeId);
      var townshipTypeId :- FromStr(townshipTypeId);
      var municipalityId :- FromStr(municipalityId);
      var townshipZipTypeId :- FromIntString(townshipZipTypeId);
      var zone :- FromStr(zone);
      var cityId :- FromStr(cityId);
      Some(Zone(zipCode, township, townshipType, municipality, state, city, cpId, stateId,
                officeId, townshipTypeId, municipalityId, townshipZipTypeId, zone, cityId))
    }

    function ToDict(): (r: Json)
      ensures r.JObj?
    {
      JObj(map[
        "zip_code" := ToIntString(zipCode),
        "township" := JStr(township),
        "township_type" := JStr(townshipType),
        "municipality" := JStr(municipality),
        "state" := JStr(state),
        "city" := JStr(city),
        "cp_id" := ToIntString(cpId),
        "state_id" := ToIntString(stateId),
        "office_id" := ToIntString(officeId),
        "township_type_id" := JStr(townshipTypeId),
        "municipality_id" := JStr(municipalityId),
        "township_zip_type_id" := ToIntString(townshipZipTypeId),
        "zone" := JStr(zone),
        "city_id" := JStr(cityId)])
    }
  }

  /** What `to_dict` writes under the zone's first seven keys. */
  lemma ZoneToDictFieldsA(x: Zone)
    ensures Get(x.ToDict().fields, "zip_code") == ToIntString(x.zipCode)
    ensures Get(x.ToDict().fields, "township") == JStr(x.township)
    ensures Get(x.ToDict().fields, "township_type") == JStr(x.townshipType)
    ensures Get(x.ToDict().fields, "municipality") == JStr(x.municipality)
    ensures Get(x.ToDict().fields, "state") == JStr(x.state)
    ensures Get(x.ToDict().fields, "city") == JStr(x.city)
    ensures Get(x.ToDict().fields, "cp_id") == ToIntString(x.cpId)
  {
  }

  /** What `to_dict` writes under the zone's last seven keys. */
  lemma ZoneToDictFieldsB(x: Zone)
    ensures Get(x.ToDict().fields, "state_id") == ToIntString(x.stateId)
    ensures Get(x.ToDict().fields, "office_id") == ToIntString(x.officeId)
    ensures Get(x.ToDict().fields, "township_type_id") == JStr(x.townshipTypeId)
    ensures Get(x.ToDict().fields, "municipality_id") == JStr(x.municipalityId)
    ensures Get(x.ToDict().fields, "township_zip_type_id") == ToIntString(x.townshipZipTypeId)
    ensures Get(x.ToDict().fields, "zone") == JStr(x.zone)
    ensures Get(x.ToDict().fields, "city_id") == JStr(x.cityId)
  {
  }

  /** `to_dict` writes exactly the fourteen zone keys. */
  lemma ZoneKeys(x: Zone)
    ensures x.ToDict().fields.Keys == {
        "zip_code", "township", "township_type", "municipality", "state", "city", "cp_id",
        "state_id", "office_id", "township_type_id", "municipality_id", "township_zip_type_id",
        "zone", "city_id"}
  {
  }

  lemma ZoneRoundTrip(x: Zone)
    ensures Zone.FromDict(x.ToDict()) == Some(x)
  {
    ZoneToDictFieldsA(x);
    ZoneToDictFieldsB(x);
    IntStringFieldRoundTrip(x.zipCode);
    IntStringFieldRoundTrip(x.cpId);
    IntStringFieldRoundTrip(x.stateId);
    IntStringFieldRoundTrip(x.officeId);
    IntStringFieldRoundTrip(x.townshipZipTypeId);
  }

  datatype Payload = Payload(
    address: seq<string>, verifications: seq<Verification>, zone: Zone, state: State,
    exact: bool, valid: bool)
  {
    static function FromDict(obj: Json): (r: Option<Payload>)
      ensures !obj.JObj? ==> r.None?
      ensures r.Some? ==> FromList(FromStr, Get(obj.fields, "address")) == Some(r.value.address)
      ensures r.Some? ==> FromList(VerificationFromDict, Get(obj.fields, "verifications")) == Some(r.value.verifications)
      ensures r.Some? ==> Zone.FromDict(Get(obj.fields, "zone")) == Some(r.value.zone)
      ensures r.Some? ==> (State.FromDict(Get(obj.fields, "state")) == Some(r.value.state)
        && Get(obj.fields, "exact") == JBool(r.value.exact) && Get(obj.fields, "valid") == JBool(r.value.valid))
      ensures r.Some? <==> (obj.JObj?
        && FromList(FromStr, Get(obj.fields, "address")).Some?
        && FromList(VerificationFromDict, Get(obj.fields, "verifications")).Some?
        && Zone.FromDict(Get(obj.fields, "zone")).Some? && State.FromDict(Get(obj.fields, "state")).Some?
        && Get(obj.fields, "exact").JBool? && Get(obj.fields, "valid").JBool?)
    {
      if !obj.JObj? then None
      else
        var address :- FromList(FromStr, Get(obj.fields, "address"));
        var verifications :- FromList(VerificationFromDict, Get(obj.fields, "verifications"));
        var zone :- Zone.FromDict(Get(obj.fields, "zone"));
        var state :- State.FromDict(Get(obj.fields, "state"));
        var exact :- FromBool(Get(obj.fields, "exact"));
        var valid :- FromBool(Get(obj.fields, "valid"));
        Some(Payload(address, verifications, zone, state, exact, valid))
    }

    function ToDict(): (r: Json)
      ensures r.JObj? && r.fields.Keys == {"address", "verifications", "zone", "state", "exact", "valid"}
    {
      JObj(map[
        "address" := ToList(StrToJson, address),
        "verifications" := ToList(VerificationToDict, verifications),
        "zone" := zone.ToDict(),
        "state" := state.ToDict(),
        "exact" := JBool(exact),
        "valid" := JBool(valid)])
    }
  }

  lemma PayloadRoundTrip(x: Payload)
    ensures Payload.FromDict(x.ToDict()) == Some(x)
  {
    var f := x.ToDict().fields;
    assert Get(f, "address") == ToList(StrToJson, x.address);
    assert Get(f, "verifications") == ToList(VerificationToDict, x.verifications);
    assert Get(f, "zone") == x.zone.ToDict();
    assert Get(f, "state") == x.state.ToDict();
    assert Get(f, "exact") == JBool(x.exact);
    assert Get(f, "valid") == JBool(x.valid);
    StringsRoundTrip(x.address);
    VerificationsRoundTrip(x.verifications);
    ZoneRoundTrip(x.zone);
    StateRoundTrip(x.state);
  }

  datatype AddressParser = AddressParser(status: bool, payload: Payload) {

    static function FromDict(obj: Json): (r: Option<AddressParser>)
      ensures !obj.JObj? ==> r.None?
      ensures r.Some? ==> Get(obj.fields, "status") == JBool(r.value.status)
      ensures r.Some? ==> Payload.FromDict(Get(obj.fields, "payload")) == Some(r.value.payload)
    {
      if !obj.JObj? then None
      else
        var status :- FromBool(Get(obj.fields, "status"));
        var payload :- Payload.FromDict(Get(obj.fields, "payload"));
        Some(AddressParser(status, payload))
    }

    function ToDict(): (r: Json)
      ensures r.JObj? && r.fields.Keys == {"status", "payload"}
    {
      JObj(map["status" := JBool(status), "payload" := payload.ToDict()])
    }
  }

  lemma AddressParserRoundTrip(x: AddressParser)
    ensures AddressParser.FromDict(x.ToDict()) == Some(x)
  {
    var f := x.ToDict().fields;
    assert Get(f, "status") == JBool(x.status);
    assert Get(f, "payload") == x.payload.ToDict();
    PayloadRoundTrip(x.payload);
  }
}
