/**
 * The identity-document (INE) result records of models/id.py: each class has a
 * `FromDict` that type-checks a decoded JSON object field by field and a
 * `ToDict` that writes exactly the class's keys. Integers marked "decimal
 * string" travel as strings on the wire (`int(from_str(...))` / `from_str(str(...))`).
 */
module IdModel {
  import opened Wrappers
  import opened Json

  /** `value` and `hash` are decimal strings on the wire. */
  datatype DocumentNumberClass = DocumentNumberClass(value: int, hash: int, valid: bool) {

    static function FromDict(obj: Json): (r: Option<DocumentNumberClass>)
      ensures !obj.JObj? ==> r.None?
      ensures obj.JObj? && !Get(obj.fields, "value").JStr? ==> r.None?
      ensures r.Some? ==> FromBool(Get(obj.fields, "valid")) == Some(r.value.valid)
    {
      if !obj.JObj? then None
      else
        var value :- FromIntString(Get(obj.fields, "value"));
        var hash :- FromIntString(Get(obj.fields, "hash"));
        var valid :- FromBool(Get(obj.fields, "valid"));
        Some(DocumentNumberClass(value, hash, valid))
    }

    function ToDict(): (r: Json)
      ensures r.JObj? && r.fields.Keys == {"value", "hash", "valid"}
    {
      JObj(map["value" := ToIntString(value), "hash" := ToIntString(hash), "valid" := JBool(valid)])
    }
  }

  lemma DocumentNumberRoundTrip(x: DocumentNumberClass)
    ensures DocumentNumberClass.FromDict(x.ToDict()) == Some(x)
  {
    IntStringFieldRoundTrip(x.value);
    IntStringFieldRoundTrip(x.hash);
  }

  datatype CheckDigit = CheckDigit(
    documentNumber: DocumentNumberClass, dob: DocumentNumberClass,
    expiry: DocumentNumberClass, finalCheck: DocumentNumberClass, valid: bool)
  {
    static function FromDict(obj: Json): (r: Option<CheckDigit>)
      ensures !obj.JObj? ==> r.None?
      ensures r.Some? ==> DocumentNumberClass.FromDict(Get(obj.fields, "dob")) == Some(r.value.dob)
    {
      if !obj.JObj? then None
      else
        var documentNumber :- DocumentNumberClass.FromDict(Get(obj.fields, "document_number"));
        var dob :- DocumentNumberClass.FromDict(Get(obj.fields, "dob"));
        var expiry :- DocumentNumberClass.FromDict(Get(obj.fields, "expiry"));
        var finalCheck :- DocumentNumberClass.FromDict(Get(obj.fields, "final_check"));
        var valid :- FromBool(Get(obj.fields, "valid"));
        Some(CheckDigit(documentNumber, dob, expiry, finalCheck, valid))
    }

    function ToDict(): (r: Json)
      ensures r.JObj? && r.fields.Keys == {"document_number", "dob", "expiry", "final_check", "valid"}
    {
      JObj(map[
        "document_number" := documentNumber.ToDict(),
        "dob" := dob.ToDict(),
        "expiry" := expiry.ToDict(),
        "final_check" := finalCheck.ToDict(),
        "valid" := JBool(valid)])
    }
  }

  lemma CheckDigitRoundTrip(x: CheckDigit)
    ensures CheckDigit.FromDict(x.ToDict()) == Some(x)
  {
    var f := x.ToDict().fields;
    assert Get(f, "document_number") == x.documentNumber.ToDict();
    assert Get(f, "dob") == x.dob.ToDict();
    assert Get(f, "expiry") == x.expiry.ToDict();
    assert Get(f, "final_check") == x.finalCheck.ToDict();
    assert Get(f, "valid") == JBool(x.valid);
    DocumentNumberRoundTrip(x.documentNumber);
    DocumentNumberRoundTrip(x.dob);
    DocumentNumberRoundTrip(x.expiry);
    DocumentNumberRoundTrip(x.finalCheck);
  }

  datatype Country = Country(abbr: string, full: string) {

    static function FromDict(obj: Json): (r: Option<Country>)
      ensures r.Some? <==> obj.JObj? && Get(obj.fields, "abbr").JStr? && Get(obj.fields, "full").JStr?
      ensures r.Some? ==> r.value == Country(Get(obj.fields, "abbr").strValue, Get(obj.fields, "full").strValue)
    {
      if !obj.JObj? then None
      else
        var abbr :- FromStr(Get(obj.fields, "abbr"));
        var full :- FromStr(Get(obj.fields, "full"));
        Some(Country(abbr, full))
    }

    function ToDict(): (r: Json)
      ensures r.JObj? && r.fields.Keys == {"abbr", "full"}
    {
      JObj(map["abbr" := JStr(abbr), "full" := JStr(full)])
    }
  }

  lemma CountryRoundTrip(x: Country)
    ensures Country.FromDict(x.ToDict()) == Some(x)
  {
  }

  /** `year` and `day` must be real integers; `original` is a decimal string. */
  datatype PayloadDob = PayloadDob(year: int, month: string, day: int, original: int) {

    static function FromDict(obj: Json): (r: Option<PayloadDob>)
      ensures !obj.JObj? ==> r.None?
      ensures obj.JObj? && Get(obj.fields, "year").JBool? ==> r.None?
      ensures obj.JObj? && Get(obj.fields, "day").JStr? ==> r.None?
      ensures r.Some? ==> Get(obj.fields, "year") == JInt(r.value.year) && Get(obj.fields, "day") == JInt(r.value.day)
    {
      if !obj.JObj? then None
      else
        var year :- FromInt(Get(obj.fields, "year"));
        var month :- FromStr(Get(obj.fields, "month"));
        var day :- FromInt(Get(obj.fields, "day"));
        var original :- FromIntString(Get(obj.fields, "original"));
        Some(PayloadDob(year, month, day, original))
    }

    function ToDict(): (r: Json)
      ensures r.JObj? && r.fields.Keys == {"year", "month", "day", "original"}
    {
      JObj(map["year" := JInt(year), "month" := JStr(month), "day" := JInt(day), "original" := ToIntString(original)])
    }
  }

  lemma PayloadDobRoundTrip(x: PayloadDob)
    ensures PayloadDob.FromDict(x.ToDict()) == Some(x)
  {
    IntStringFieldRoundTrip(x.original);
  }

  /** `register_year` and `section` are decimal strings on the wire. */
  datatype Extra = Extra(electorKey: string, registerMonth: string, registerYear: int, section: int) {

    static function FromDict(obj: Json): (r: Option<Extra>)
      ensures !obj.JObj? ==> r.None?
      ensures obj.JObj? && Get(obj.fields, "section").JInt? ==> r.None?
      ensures r.Some? ==> Get(obj.fields, "elector_key") == JStr(r.value.electorKey)
    {
      if !obj.JObj? then None
      else
        var electorKey :- FromStr(Get(obj.fields, "elector_key"));
        var registerMonth :- FromStr(Get(obj.fields, "register_month"));
        var registerYear :- FromIntString(Get(obj.fields, "register_year"));
        var section :- FromIntString(Get(obj.fields, "section"));
        Some(Extra(electorKey, registerMonth, registerYear, section))
    }

    function ToDict(): (r: Json)
      ensures r.JObj? && r.fields.Keys == {"elector_key", "register_month", "register_year", "section"}
    {
      JObj(map[
        "elector_key" := JStr(electorKey),
        "register_month" := JStr(registerMonth),
        "register_year" := ToIntString(registerYear),
        "section" := ToIntString(section)])
    }
  }

  lemma ExtraRoundTrip(x: Extra)
    ensures Extra.FromDict(x.ToDict()) == Some(x)
  {
    var f := x.ToDict().fields;
    assert Get(f, "elector_key") == JStr(x.electorKey);
    assert Get(f, "register_month") == JStr(x.registerMonth);
    assert Get(f, "register_year") == ToIntString(x.registerYear);
    assert Get(f, "section") == ToIntString(x.section);
    IntStringFieldRoundTrip(x.registerYear);
    IntStringFieldRoundTrip(x.section);
  }

  datatype Description = Description(fatherLastName: string, motherLastName: string) {

    static function FromDict(obj: Json): (r: Option<Description>)
      ensures r.Some? <==> obj.JObj? && Get(obj.fields, "father_last_name").JStr? && Get(obj.fields, "mother_last_name").JStr?
    {
      if !obj.JObj? then None
      else
        var fatherLastName :- FromStr(Get(obj.fields, "father_last_name"));
        var motherLastName :- FromStr(Get(obj.fields, "mother_last_name"));
        Some(Description(fatherLastName, motherLastName))
    }

    function ToDict(): (r: Json)
      ensures r.JObj? && r.fields.Keys == {"father_last_name", "mother_last_name"}
    {
      JObj(map["father_last_name" := JStr(fatherLastName), "mother_last_name" := JStr(motherLastName)])
    }
  }

  lemma DescriptionRoundTrip(x: Description)
    ensures Description.FromDict(x.ToDict()) == Some(x)
  {
  }

  /** `names` is a list of strings, decoded element-wise in order. */
  datatype Names = Names(lastName: string, names: seq<string>, description: Description) {

    static function FromDict(obj: Json): (r: Option<Names>)
      ensures !obj.JObj? ==> r.None?
      ensures r.Some? ==> FromList(FromStr, Get(obj.fields, "names")) == Some(r.value.names)
    {
      if !obj.JObj? then None
      else
        var lastName :- FromStr(Get(obj.fields, "last_name"));
        var names :- FromList(FromStr, Get(obj.fields, "names"));
        var description :- Description.FromDict(Get(obj.fields, "description"));
        Some(Names(lastName, names, description))
    }

    function ToDict(): (r: Json)
      ensures r.JObj? && r.fields.Keys == {"last_name", "names", "description"}
    {
      JObj(map[
        "last_name" := JStr(lastName),
        "names" := ToList(StrToJson, names),
        "description" := description.ToDict()])
    }
  }

  lemma NamesRoundTrip(x: Names)
    ensures Names.FromDict(x.ToDict()) == Some(x)
  {
    StringsRoundTrip(x.names);
    DescriptionRoundTrip(x.description);
  }

  datatype OptionalElement = OptionalElement(value: string, valid: bool) {

    static function FromDict(obj: Json): (r: Option<OptionalElement>)
      ensures r.Some? <==> obj.JObj? && Get(obj.fields, "value").JStr? && Get(obj.fields, "valid").JBool?
    {
      if !obj.JObj? then None
      else
        var value :- FromStr(Get(obj.fields, "value"));
        var valid :- FromBool(Get(obj.fields, "valid"));
        Some(OptionalElement(value, valid))
    }

    function ToDict(): (r: Json)
      ensures r.JObj? && r.fields.Keys == {"value", "valid"}
    {
      JObj(map["value" := JStr(value), "valid" := JBool(valid)])
    }
  }

  function OptionalElementFromDict(obj: Json): Option<OptionalElement> {
    OptionalElement.FromDict(obj)
  }

  function OptionalElementToDict(x: OptionalElement): Json {
    x.ToDict()
  }

  lemma OptionalsRoundTrip(xs: seq<OptionalElement>)
    ensures FromList(OptionalElementFromDict, ToList(OptionalElementToDict, xs)) == Some(xs)
  {
    FromListToList(OptionalElementFromDict, OptionalElementToDict, xs);
  }

  datatype Validations = Validations(registerMonthValidation: bool, sectionValidation: bool) {

    static function FromDict(obj: Json): (r: Option<Validations>)
      ensures r.Some? <==> obj.JObj? && Get(obj.fields, "register_month_validation").JBool? && Get(obj.fields, "section_validation").JBool?
    {
      if !obj.JObj? then None
      else
        var registerMonthValidation :- FromBool(Get(obj.fields, "register_month_validation"));
        var sectionValidation :- FromBool(Get(obj.fields, "section_validation"));
        Some(Validations(registerMonthValidation, sectionValidation))
    }

    function ToDict(): (r: Json)
      ensures r.JObj? && r.fields.Keys == {"register_month_validation", "section_validation"}
    {
      JObj(map["register_month_validation" := JBool(registerMonthValidation), "section_validation" := JBool(sectionValidation)])
    }
  }

  lemma ValidationsRoundTrip(x: Validations)
    ensures Validations.FromDict(x.ToDict()) == Some(x)
  {
  }

  /**
   * The document payload. `document_number` is a decimal string on the wire;
   * `check_digit` is neither read nor written (it is commented out in the source).
   */
  datatype Payload = Payload(
    documentCode: string, documentType: string, documentNumber: int, issuer: string,
    names: Names, country: Country, nationality: Country, dob: PayloadDob, sex: Country,
    expiry: PayloadDob, personalNumber: string, matchDocumentSides: bool,
    address: seq<string>, optionals: seq<OptionalElement>, extra: Extra, validations: Validations)
  {
    static function FromDict(obj: Json): (r: Option<Payload>)
      ensures !obj.JObj? ==> r.None?
      ensures r.Some? ==> FromList(FromStr, Get(obj.fields, "address")) == Some(r.value.address)
      ensures r.Some? ==> FromList(OptionalElementFromDict, Get(obj.fields, "optionals")) == Some(r.value.optionals)
    {
      if !obj.JObj? then None
      else
        var f := obj.fields;
        FromFields(
          Get(f, "document_code"), Get(f, "document_type"), Get(f, "document_number"), Get(f, "issuer"),
          Get(f, "names"), Get(f, "country"), Get(f, "nationality"), Get(f, "dob"), Get(f, "sex"),
          Get(f, "expiry"), Get(f, "personal_number"), Get(f, "match_document_sides"),
          Get(f, "address"), Get(f, "optionals"), Get(f, "extra"), Get(f, "validations"))
    }

    /** The field-by-field decoding of `from_dict`, given what the object holds under each key. */
    static function FromFields(
      documentCode: Json, documentType: Json, documentNumber: Json, issuer: Json,
      names: Json, country: Json, nationality: Json, dob: Json, sex: Json,
      expiry: Json, personalNumber: Json, matchDocumentSides: Json,
      address: Json, optionals: Json, extra: Json, validations: Json): (r: Option<Payload>)
      ensures r.Some? ==> FromList(FromStr, address) == Some(r.value.address)
      ensures r.Some? ==> FromList(OptionalElementFromDict, optionals) == Some(r.value.optionals)
    {
      var documentCode :- FromStr(documentCode);
      var documentType :- FromStr(documentType);
      var documentNumber :- FromIntString(documentNumber);
      var issuer :- FromStr(issuer);
      var names :- Names.FromDict(names);
      var country :- Country.FromDict(country);
      var nationality :- Country.FromDict(nationality);
      var dob :- PayloadDob.FromDict(dob);
      var sex :- Country.FromDict(sex);
      var expiry :- PayloadDob.FromDict(expiry);
      var personalNumber :- FromStr(personalNumber);
      var matchDocumentSides :- FromBool(matchDocumentSides);
      var address :- FromList(FromStr, address);
      var optionals :- FromList(OptionalElementFromDict, optionals);
      var extra :- Extra.FromDict(extra);
      var validations :- Validations.FromDict(validations);
      Some(Payload(documentCode, documentType, documentNumber, issuer, names, country, nationality,
                   dob, sex, expiry, personalNumber, matchDocumentSides, address, optionals, extra, validations))
    }

    function ToDict(): (r: Json)
      ensures r.JObj?
    {
      JObj(PayloadMap(
        JStr(documentCode), JStr(documentType), ToIntString(documentNumber), JStr(issuer),
        names.ToDict(), country.ToDict(), nationality.ToDict(), dob.ToDict(),
        sex.ToDict(), expiry.ToDict(), JStr(personalNumber), JBool(matchDocumentSides),
        ToList(StrToJson, address), ToList(OptionalElementToDict, optionals), extra.ToDict(), validations.ToDict()))
    }
  }

  /** Decoding succeeds with `x` once every field of the object decodes to the matching field of `x`. */
  lemma PayloadFromFields(f: map<string, Json>, x: Payload)
    requires FromStr(Get(f, "document_code")) == Some(x.documentCode)
    requires FromStr(Get(f, "document_type")) == Some(x.documentType)
    requires FromIntString(Get(f, "document_number")) == Some(x.documentNumber)
    requires FromStr(Get(f, "issuer")) == Some(x.issuer)
    requires Names.FromDict(Get(f, "names")) == Some(x.names)
    requires Country.FromDict(Get(f, "country")) == Some(x.country)
    requires Country.FromDict(Get(f, "nationality")) == Some(x.nationality)
    requires PayloadDob.FromDict(Get(f, "dob")) == Some(x.dob)
    requires Country.FromDict(Get(f, "sex")) == Some(x.sex)
    requires PayloadDob.FromDict(Get(f, "expiry")) == Some(x.expiry)
    requires FromStr(Get(f, "personal_number")) == Some(x.personalNumber)
    requires FromBool(Get(f, "match_document_sides")) == Some(x.matchDocumentSides)
    requires FromList(FromStr, Get(f, "address")) == Some(x.address)
    requires FromList(OptionalElementFromDict, Get(f, "optionals")) == Some(x.optionals)
    requires Extra.FromDict(Get(f, "extra")) == Some(x.extra)
    requires Validations.FromDict(Get(f, "validations")) == Some(x.validations)
    ensures Payload.FromDict(JObj(f)) == Some(x)
  {
  }

  /** The sixteen keys of a payload object, with the values `to_dict` writes under them. */
  function PayloadMap(
    documentCode: Json, documentType: Json, documentNumber: Json, issuer: Json,
    names: Json, country: Json, nationality: Json, dob: Json,
    sex: Json, expiry: Json, personalNumber: Json, matchDocumentSides: Json,
    address: Json, optionals: Json, extra: Json, validations: Json): map<string, Json>
  {
    map[
      "document_code" := documentCode,
      "document_type" := documentType,
      "document_number" := documentNumber,
      "issuer" := issuer,
      "names" := names,
      "country" := country,
      "nationality" := nationality,
      "dob" := dob,
      "sex" := sex,
      "expiry" := expiry,
      "personal_number" := personalNumber,
      "match_document_sides" := matchDocumentSides,
      "address" := address,
      "optionals" := optionals,
      "extra" := extra,
      "validations" := validations]
  }

  lemma PayloadMapLookupsA(
    documentCode: Json, documentType: Json, documentNumber: Json, issuer: Json,
    names: Json, country: Json, nationality: Json, dob: Json,
    sex: Json, expiry: Json, personalNumber: Json, matchDocumentSides: Json,
    address: Json, optionals: Json, extra: Json, validations: Json)
    ensures Get(PayloadMap(documentCode, documentType, documentNumber, issuer, names, country, nationality, dob, sex, expiry, personalNumber, matchDocumentSides, address, optionals, extra, validations), "document_code") == documentCode
    ensures Get(PayloadMap(documentCode, documentType, documentNumber, issuer, names, country, nationality, dob, sex, expiry, personalNumber, matchDocumentSides, address, optionals, extra, validations), "document_type") == documentType
    ensures Get(PayloadMap(documentCode, documentType, documentNumber, issuer, names, country, nationality, dob, sex, expiry, personalNumber, matchDocumentSides, address, optionals, extra, validations), "document_number") == documentNumber
    ensures Get(PayloadMap(documentCode, documentType, documentNumber, issuer, names, country, nationality, dob, sex, expiry, personalNumber, matchDocumentSides, address, optionals, extra, validations), "issuer") == issuer
  {
  }

  lemma PayloadMapLookupsA2(
    documentCode: Json, documentType: Json, documentNumber: Json, issuer: Json,
    names: Json, country: Json, nationality: Json, dob: Json,
    sex: Json, expiry: Json, personalNumber: Json, matchDocumentSides: Json,
    address: Json, optionals: Json, extra: Json, validations: Json)
    ensures Get(PayloadMap(documentCode, documentType, documentNumber, issuer, names, country, nationality, dob, sex, expiry, personalNumber, matchDocumentSides, address, optionals, extra, validations), "names") == names
    ensures Get(PayloadMap(documentCode, documentType, documentNumber, issuer, names, country, nationality, dob, sex, expiry, personalNumber, matchDocumentSides, address, optionals, extra, validations), "country") == country
    ensures Get(PayloadMap(documentCode, documentType, documentNumber, issuer, names, country, nationality, dob, sex, expiry, personalNumber, matchDocumentSides, address, optionals, extra, validations), "nationality") == nationality
    ensures Get(PayloadMap(documentCode, documentType, documentNumber, issuer, names, country, nationality, dob, sex, expiry, personalNumber, matchDocumentSides, address, optionals, extra, validations), "dob") == dob
  {
  }

  lemma PayloadMapLookupsB(
    documentCode: Json, documentType: Json, documentNumber: Json, issuer: Json,
    names: Json, country: Json, nationality: Json, dob: Json,
    sex: Json, expiry: Json, personalNumber: Json, matchDocumentSides: Json,
    address: Json, optionals: Json, extra: Json, validations: Json)
    ensures Get(PayloadMap(documentCode, documentType, documentNumber, issuer, names, country, nationality, dob, sex, expiry, personalNumber, matchDocumentSides, address, optionals, extra, validations), "sex") == sex
    ensures Get(PayloadMap(documentCode, documentType, documentNumber, issuer, names, country, nationality, dob, sex, expiry, personalNumber, matchDocumentSides, address, optionals, extra, validations), "expiry") == expiry
    ensures Get(PayloadMap(documentCode, documentType, documentNumber, issuer, names, country, nationality, dob, sex, expiry, personalNumber, matchDocumentSides, address, optionals, extra, validations), "personal_number") == personalNumber
    ensures Get(PayloadMap(documentCode, documentType, documentNumber, issuer, names, country, nationality, dob, sex, expiry, personalNumber, matchDocumentSides, address, optionals, extra, validations), "match_document_sides") == matchDocumentSides
  {
  }

  lemma PayloadMapLookupsB2(
    documentCode: Json, documentType: Json, documentNumber: Json, issuer: Json,
    names: Json, country: Json, nationality: Json, dob: Json,
    sex: Json, expiry: Json, personalNumber: Json, matchDocumentSides: Json,
    address: Json, optionals: Json, extra: Json, validations: Json)
    ensures Get(PayloadMap(documentCode, documentType, documentNumber, issuer, names, country, nationality, dob, sex, expiry, personalNumber, matchDocumentSides, address, optionals, extra, validations), "address") == address
    ensures Get(PayloadMap(documentCode, documentType, documentNumber, issuer, names, country, nationality, dob, sex, expiry, personalNumber, matchDocumentSides, address, optionals, extra, validations), "optionals") == optionals
    ensures Get(PayloadMap(documentCode, documentType, documentNumber, issuer, names, country, nationality, dob, sex, expiry, personalNumber, matchDocumentSides, address, optionals, extra, validations), "extra") == extra
    ensures Get(PayloadMap(documentCode, documentType, documentNumber, issuer, names, country, nationality, dob, sex, expiry, personalNumber, matchDocumentSides, address, optionals, extra, validations), "validations") == validations
  {
  }

  /** What `to_dict` writes under the payload's first four keys. */
  lemma PayloadToDictFieldsA(x: Payload)
    ensures Get(x.ToDict().fields, "document_code") == JStr(x.documentCode)
    ensures Get(x.ToDict().fields, "document_type") == JStr(x.documentType)
    ensures Get(x.ToDict().fields, "document_number") == ToIntString(x.documentNumber)
    ensures Get(x.ToDict().fields, "issuer") == JStr(x.issuer)
  {
    PayloadMapLookupsA(
      JStr(x.documentCode), JStr(x.documentType), ToIntString(x.documentNumber), JStr(x.issuer),
      x.names.ToDict(), x.country.ToDict(), x.nationality.ToDict(), x.dob.ToDict(),
      x.sex.ToDict(), x.expiry.ToDict(), JStr(x.personalNumber), JBool(x.matchDocumentSides),
      ToList(StrToJson, x.address), ToList(OptionalElementToDict, x.optionals), x.extra.ToDict(), x.validations.ToDict());
  }

  /** What `to_dict` writes under the payload's keys five to eight. */
  lemma PayloadToDictFieldsA2(x: Payload)
    ensures Get(x.ToDict().fields, "names") == x.names.ToDict()
    ensures Get(x.ToDict().fields, "country") == x.country.ToDict()
    ensures Get(x.ToDict().fields, "nationality") == x.nationality.ToDict()
    ensures Get(x.ToDict().fields, "dob") == x.dob.ToDict()
  {
    PayloadMapLookupsA2(
      JStr(x.documentCode), JStr(x.documentType), ToIntString(x.documentNumber), JStr(x.issuer),
      x.names.ToDict(), x.country.ToDict(), x.nationality.ToDict(), x.dob.ToDict(),
      x.sex.ToDict(), x.expiry.ToDict(), JStr(x.personalNumber), JBool(x.matchDocumentSides),
      ToList(StrToJson, x.address), ToList(OptionalElementToDict, x.optionals), x.extra.ToDict(), x.validations.ToDict());
  }

  /** What `to_dict` writes under the payload's keys nine to twelve. */
  lemma PayloadToDictFieldsB(x: Payload)
    ensures Get(x.ToDict().fields, "sex") == x.sex.ToDict()
    ensures Get(x.ToDict().fields, "expiry") == x.expiry.ToDict()
    ensures Get(x.ToDict().fields, "personal_number") == JStr(x.personalNumber)
    ensures Get(x.ToDict().fields, "match_document_sides") == JBool(x.matchDocumentSides)
  {
    PayloadMapLookupsB(
      JStr(x.documentCode), JStr(x.documentType), ToIntString(x.documentNumber), JStr(x.issuer),
      x.names.ToDict(), x.country.ToDict(), x.nationality.ToDict(), x.dob.ToDict(),
      x.sex.ToDict(), x.expiry.ToDict(), JStr(x.personalNumber), JBool(x.matchDocumentSides),
      ToList(StrToJson, x.address), ToList(OptionalElementToDict, x.optionals), x.extra.ToDict(), x.validations.ToDict());
  }

  /** What `to_dict` writes under the payload's last four keys. */
  lemma PayloadToDictFieldsB2(x: Payload)
    ensures Get(x.ToDict().fields, "address") == ToList(StrToJson, x.address)
    ensures Get(x.ToDict().fields, "optionals") == ToList(OptionalElementToDict, x.optionals)
    ensures Get(x.ToDict().fields, "extra") == x.extra.ToDict()
    ensures Get(x.ToDict().fields, "validations") == x.validations.ToDict()
  {
    PayloadMapLookupsB2(
      JStr(x.documentCode), JStr(x.documentType), ToIntString(x.documentNumber), JStr(x.issuer),
      x.names.ToDict(), x.country.ToDict(), x.nationality.ToDict(), x.dob.ToDict(),
      x.sex.ToDict(), x.expiry.ToDict(), JStr(x.personalNumber), JBool(x.matchDocumentSides),
      ToList(StrToJson, x.address), ToList(OptionalElementToDict, x.optionals), x.extra.ToDict(), x.validations.ToDict());
  }

  lemma PayloadRoundTrip(x: Payload)
    ensures Payload.FromDict(x.ToDict()) == Some(x)
  {
    var f := x.ToDict().fields;
    PayloadToDictFieldsA(x);
    PayloadToDictFieldsA2(x);
    PayloadToDictFieldsB(x);
    PayloadToDictFieldsB2(x);
    IntStringFieldRoundTrip(x.documentNumber);
    NamesRoundTrip(x.names);
    CountryRoundTrip(x.country);
    CountryRoundTrip(x.nationality);
    CountryRoundTrip(x.sex);
    PayloadDobRoundTrip(x.dob);
    PayloadDobRoundTrip(x.expiry);
    StringsRoundTrip(x.address);
    OptionalsRoundTrip(x.optionals);
    ExtraRoundTrip(x.extra);
    ValidationsRoundTrip(x.validations);
    PayloadFromFields(f, x);
  }

  /** `to_dict` writes exactly the sixteen payload keys; `check_digit` is not among them. */
  lemma PayloadKeys(x: Payload)
    ensures "check_digit" !in x.ToDict().fields
    ensures x.ToDict().fields.Keys == {
        "document_code", "document_type", "document_number", "issuer", "names", "country",
        "nationality", "dob", "sex", "expiry", "personal_number", "match_document_sides",
        "address", "optionals", "extra", "validations"}
  {
  }

  lemma CheckDigitUpdateLeavesFields(fields: map<string, Json>, v: Json)
    ensures Get(fields["check_digit" := v], "document_code") == Get(fields, "document_code")
    ensures Get(fields["check_digit" := v], "document_type") == Get(fields, "document_type")
    ensures Get(fields["check_digit" := v], "document_number") == Get(fields, "document_number")
    ensures Get(fields["check_digit" := v], "issuer") == Get(fields, "issuer")
    ensures Get(fields["check_digit" := v], "names") == Get(fields, "names")
    ensures Get(fields["check_digit" := v], "country") == Get(fields, "country")
    ensures Get(fields["check_digit" := v], "nationality") == Get(fields, "nationality")
    ensures Get(fields["check_digit" := v], "dob") == Get(fields, "dob")
    ensures Get(fields["check_digit" := v], "sex") == Get(fields, "sex")
    ensures Get(fields["check_digit" := v], "expiry") == Get(fields, "expiry")
    ensures Get(fields["check_digit" := v], "personal_number") == Get(fields, "personal_number")
    ensures Get(fields["check_digit" := v], "match_document_sides") == Get(fields, "match_document_sides")
    ensures Get(fields["check_digit" := v], "address") == Get(fields, "address")
    ensures Get(fields["check_digit" := v], "optionals") == Get(fields, "optionals")
    ensures Get(fields["check_digit" := v], "extra") == Get(fields, "extra")
    ensures Get(fields["check_digit" := v], "validations") == Get(fields, "validations")
  {
  }

  /** Whatever an incoming object holds under `check_digit` does not affect decoding. */
  lemma PayloadIgnoresCheckDigit(fields: map<string, Json>, v: Json)
    ensures Payload.FromDict(JObj(fields["check_digit" := v])) == Payload.FromDict(JObj(fields))
  {
    CheckDigitUpdateLeavesFields(fields, v);
  }

  datatype IDResult = IDResult(status: bool, payload: Payload) {

    static function FromDict(obj: Json): (r: Option<IDResult>)
      ensures !obj.JObj? ==> r.None?
      ensures r.Some? ==> Get(obj.fields, "status") == JBool(r.value.status)
      ensures r.Some? ==> Payload.FromDict(Get(obj.fields, "payload")) == Some(r.value.payload)
    {
      if !obj.JObj? then None
      else
        var status :- FromBool(Get(obj.fields, "status"));
        var payload :- Payload.FromDict(Get(obj.fields, "payload"));
        Some(IDResult(status, payload))
    }

    function ToDict(): (r: Json)
      ensures r.JObj? && r.fields.Keys == {"status", "payload"}
    {
      JObj(map["status" := JBool(status), "payload" := payload.ToDict()])
    }
  }

  lemma IDResultRoundTrip(x: IDResult)
    ensures IDResult.FromDict(x.ToDict()) == Some(x)
  {
    var f := x.ToDict().fields;
    assert Get(f, "status") == JBool(x.status);
    assert Get(f, "payload") == x.payload.ToDict();
    PayloadRoundTrip(x.payload);
  }
}
