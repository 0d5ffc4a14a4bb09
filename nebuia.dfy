/**
 * implementations/nebuia_functions.py: the business validators the language
 * model can call, the ID-card media handler with its image-count gate, the
 * media tool table, and the multipart/form-data bodies the NebuIA API client
 * posts (section 5.1.1 of RFC 2046 for the delimiters, section 4.2 of RFC 7578
 * for the Content-Disposition header). The HTTP transport and the media
 * download are parameters.
 */
module Nebuia {
  import opened Wrappers
  import opened Json
  import opened PyText
  import opened Response
  import Mongo
  import IdModel
  import AddressModel
  import SpoofFaceModel

  newtype byte = x: int | 0 <= x < 256

  // validators offered to the language model

  /** `str.isnumeric()`, on ASCII digits: non-empty and all digits. */
  predicate IsNumeric(s: string) {
    |s| > 0 && AllDigits(s)
  }

  /** `check_number_valid(value)` */
  function CheckNumberValid(value: string): (r: bool)
    ensures r <==> IsNumeric(value) && |value| == 8
  {
    if IsNumeric(value) then |value| == 8 else false
  }

  const MaxAmount := 20000

  /** `check_amount_to_request(value)`: a numeric amount of at most 20 000. */
  function CheckAmountToRequest(value: string): (r: bool)
    ensures !IsNumeric(value) ==> !r
    ensures IsNumeric(value) ==> (r <==> DigitsValue(value) <= MaxAmount)
  {
    if IsNumeric(value) then !(DigitsValue(value) > MaxAmount) else false
  }

  /** The limit itself is accepted, one more is refused. */
  lemma AmountLimit()
    ensures CheckAmountToRequest("20000") && !CheckAmountToRequest("20001")
  {
    assert DigitsValue("20000") == 20000 by {
      assert "20000"[..4] == "2000" && "2000"[..3] == "200" && "200"[..2] == "20" && "20"[..1] == "2";
    }
    assert DigitsValue("20001") == 20001 by {
      assert "20001"[..4] == "2000" && "2000"[..3] == "200" && "200"[..2] == "20" && "20"[..1] == "2";
    }
  }

  /** Six digits start at position `i` of `s`. */
  predicate DigitRunAt(s: string, i: int) {
    0 <= i && i + 6 <= |s| && AllDigits(s[i..i + 6])
  }

  /** Whether `s` holds six consecutive digits somewhere (`re.search(r"[0-9]{6}", value)`). */
  predicate HasSixDigitRun(s: string) {
    exists i :: 0 <= i <= |s| && DigitRunAt(s, i)
  }

  /** The search itself: the leftmost position of a run of six digits. */
  function SearchSixDigits(s: string, from: nat): (r: Option<nat>)
    requires from <= |s|
    ensures r.Some? ==> from <= r.value && DigitRunAt(s, r.value)
    ensures r.Some? ==> forall i :: from <= i < r.value ==> !DigitRunAt(s, i)
    ensures r.None? ==> forall i :: from <= i ==> !DigitRunAt(s, i)
    decreases |s| - from
  {
    if from + 6 > |s| then None
    else if DigitRunAt(s, from) then Some(from)
    else SearchSixDigits(s, from + 1)
  }

  /** The search finds a run exactly when there is one. */
  lemma SearchFindsRun(s: string)
    ensures SearchSixDigits(s, 0).Some? <==> HasSixDigitRun(s)
  {
    if SearchSixDigits(s, 0).Some? {
      assert DigitRunAt(s, SearchSixDigits(s, 0).value);
    }
  }

  /**
   * The gate of `check_otp_valid(value)`: the code forwarded for verification,
   * which is the whole `value` and not just the digits found.
   */
  function OtpGate(value: string): (r: Option<string>)
    ensures r.Some? <==> HasSixDigitRun(value)
    ensures r.Some? ==> r.value == value
  {
    SearchFindsRun(value);
    if SearchSixDigits(value, 0).Some? then Some(value) else None
  }

  /** `check_otp_valid(value)`: `verify(report, code)` stands for the NebuIA OTP endpoint. */
  function CheckOtpValid(value: string, report: Json, verify: (Json, string) -> Json): (r: Json)
    ensures !HasSixDigitRun(value) ==> r == JBool(false)
    ensures HasSixDigitRun(value) ==> r == verify(report, value)
  {
    match OtpGate(value)
    case None => JBool(false)
    case Some(code) => verify(report, code)
  }

  /** A six-digit code embedded in text is forwarded with the text around it. */
  lemma OtpSearchIsUnanchored()
    ensures OtpGate("code 123456!") == Some("code 123456!")
  {
    assert DigitRunAt("code 123456!", 5);
  }

  const GenericReply := "Estoy aqui para ayudarte"

  /** `generic_response(value)`: the same reply whatever the input. */
  function GenericResponse(value: string): (r: string)
    ensures r == GenericReply
  {
    GenericReply
  }

  /** `check_name_valid(value)`: every name is accepted. */
  function CheckNameValid(value: string): (r: bool)
    ensures r
  {
    true
  }

  /** `check_file_content(step_details, content_type)` */
  method CheckFileContent(step: Mongo.Step, contentType: string) returns (r: bool)
    ensures r <==> contentType in step.accept
  {
    var i := 0;
    while i < |step.accept|
      invariant 0 <= i <= |step.accept|
      invariant contentType !in step.accept[..i]
    {
      if step.accept[i] == contentType {
        return true;
      }
      assert step.accept[..i + 1] == step.accept[..i] + [step.accept[i]];
      i := i + 1;
    }
    assert step.accept[..i] == step.accept;
    return false;
  }

  // media tools

  /** The three media handlers. */
  datatype MediaHandler = CheckAddressDocument | CheckFaceQuality | ProcessIneHandler

  /** `get_media_tools()` */
  function GetMediaTools(): (r: map<string, MediaHandler>)
    ensures r.Keys == {"check_address_valid", "check_face_valid", "check_ine_valid"}
    ensures r["check_address_valid"] == CheckAddressDocument
    ensures r["check_face_valid"] == CheckFaceQuality
    ensures r["check_ine_valid"] == ProcessIneHandler
  {
    map["check_address_valid" := CheckAddressDocument, "check_face_valid" := CheckFaceQuality, "check_ine_valid" := ProcessIneHandler]
  }

  // multipart bodies

  const Boundary := "----WebKitFormBoundary7MA4YWxkTrZu0gW"
  const CRLF := "\r\n"

  /**
   * `.encode('utf-8')` of the header text. Only ASCII text (the boundary, the
   * literal header lines and the field names) is encoded, and for it UTF-8 is
   * the character code; any other character is shown as `?`.
   */
  function Ascii(s: string): (r: seq<byte>)
    ensures |r| == |s|
    ensures forall k :: 0 <= k < |s| && s[k] as int < 128 ==> r[k] as int == s[k] as int
  {
    seq(|s|, k requires 0 <= k < |s| => if s[k] as int < 128 then s[k] as int as byte else '?' as int as byte)
  }

  /** A part's header section: Content-Disposition, Content-Type and the blank line. */
  function PartHeaders(name: string, filename: string, contentType: string): (r: string)
    ensures var lead := "Content-Disposition: form-data; name=\"";
      && |r| >= |lead| + |name| + 4
      && r[..|lead|] == lead && r[|lead|..|lead| + |name|] == name
      && r[|r| - 4..] == CRLF + CRLF
  {
    "Content-Disposition: form-data; name=\"" + name + "\"; filename=\"" + filename + "\"" + CRLF
    + "Content-Type: " + contentType + CRLF + CRLF
  }

  datatype Part = Part(name: string, filename: string, contentType: string, content: seq<byte>)

  /** The opening delimiter and the first part's headers. */
  function OpeningText(p: Part): string {
    "--" + Boundary + CRLF + PartHeaders(p.name, p.filename, p.contentType)
  }

  /** The delimiter before a later part, and that part's headers. */
  function DelimiterText(p: Part): string {
    CRLF + "--" + Boundary + CRLF + PartHeaders(p.name, p.filename, p.contentType)
  }

  /** The close delimiter. */
  const CloseText := CRLF + "--" + Boundary + "--" + CRLF

  /**
   * The generic multipart/form-data layout: the opening delimiter, each part's
   * headers and content, a delimiter before each later part, and the close
   * delimiter.
   */
  function MultipartBody(parts: seq<Part>): (r: seq<byte>)
    requires |parts| > 0
    ensures var open := Ascii(OpeningText(parts[0]));
      && |r| >= |open| + |parts[0].content| + |CloseText|
      && r[..|open|] == open
      && r[|open|..|open| + |parts[0].content|] == parts[0].content
      && r[|r| - |CloseText|..] == Ascii(CloseText)
  {
    Ascii(OpeningText(parts[0])) + parts[0].content + MultipartRest(parts[1..])
  }

  function MultipartRest(parts: seq<Part>): (r: seq<byte>)
    ensures |r| >= |CloseText| && r[|r| - |CloseText|..] == Ascii(CloseText)
    decreases |parts|
  {
    if |parts| == 0 then Ascii(CloseText)
    else Ascii(DelimiterText(parts[0])) + parts[0].content + MultipartRest(parts[1..])
  }

  /** The single-part body of the face and address requests, as the source writes it out. */
  function SinglePartBody(name: string, filename: string, contentType: string, content: seq<byte>): (r: seq<byte>)
    ensures var open := Ascii("--" + Boundary + CRLF + PartHeaders(name, filename, contentType));
      && |r| == |open| + |content| + |CloseText|
      && r[..|open|] == open
      && r[|open|..|open| + |content|] == content
      && r[|open| + |content|..] == Ascii(CloseText)
  {
    Ascii("--" + Boundary + CRLF + PartHeaders(name, filename, contentType)) + content + Ascii(CRLF + "--" + Boundary + "--" + CRLF)
  }

  /** The two-part body of the ID request: the front image, then the back image. */
  function IneBody(front: seq<byte>, back: seq<byte>): seq<byte> {
    Ascii("--" + Boundary + CRLF + PartHeaders("front", "image1.jpg", "image/jpeg")) + front
    + Ascii(CRLF + "--" + Boundary + CRLF + PartHeaders("back", "image2.jpg", "image/jpeg")) + back
    + Ascii(CRLF + "--" + Boundary + "--" + CRLF)
  }

  /** The single-part bodies follow the generic layout. */
  lemma SinglePartIsMultipart(name: string, filename: string, contentType: string, content: seq<byte>)
    ensures SinglePartBody(name, filename, contentType, content) == MultipartBody([Part(name, filename, contentType, content)])
  {
  }

  /** The ID body follows the generic layout, with the front part first. */
  lemma IneBodyIsMultipart(front: seq<byte>, back: seq<byte>)
    ensures IneBody(front, back) == MultipartBody([Part("front", "image1.jpg", "image/jpeg", front), Part("back", "image2.jpg", "image/jpeg", back)])
  {
    var p1 := Part("front", "image1.jpg", "image/jpeg", front);
    var p2 := Part("back", "image2.jpg", "image/jpeg", back);
    var o := Ascii(OpeningText(p1));
    var d := Ascii(DelimiterText(p2));
    var c := Ascii(CloseText);
    assert MultipartBody([p1, p2]) == o + front + (d + back + c) by {
      assert [p1, p2][1..] == [p2];
      assert MultipartRest([p2]) == d + back + c by {
        assert [p2][1..] == [];
      }
    }
    Regroup(o + front, d, back, c);
    assert IneBody(front, back) == o + front + d + back + c;
  }

  lemma Regroup(x: seq<byte>, d: seq<byte>, b: seq<byte>, c: seq<byte>)
    ensures x + (d + b + c) == x + d + b + c
  {
  }

  /**
   * Each image of the ID body is found where the layout puts it: the front
   * content right after the opening headers, the back content after the
   * delimiter that follows it, and the close delimiter at the end.
   */
  lemma IneBodyLayout(front: seq<byte>, back: seq<byte>)
    ensures var body := IneBody(front, back);
      var open := |Ascii("--" + Boundary + CRLF + PartHeaders("front", "image1.jpg", "image/jpeg"))|;
      var middle := |Ascii(CRLF + "--" + Boundary + CRLF + PartHeaders("back", "image2.jpg", "image/jpeg"))|;
      var close := Ascii(CRLF + "--" + Boundary + "--" + CRLF);
      && body[..2] == Ascii("--")
      && body[open..open + |front|] == front
      && body[open + |front| + middle..open + |front| + middle + |back|] == back
      && body[|body| - |close|..] == close
  {
  }

  /** The headers of a multipart request: the boundary and the body's length in bytes. */
  function MultipartHeaders(headers: map<string, string>, body: seq<byte>): (r: map<string, string>)
    ensures "Content-Type" in r && "Content-Length" in r
    ensures r["Content-Type"] == "multipart/form-data; boundary=" + Boundary
    ensures forall k :: k in headers && k != "Content-Type" && k != "Content-Length" ==> k in r && r[k] == headers[k]
    ensures r.Keys == headers.Keys + {"Content-Type", "Content-Length"}
  {
    headers["Content-Type" := "multipart/form-data; boundary=" + Boundary]["Content-Length" := NatToString(|body|)]
  }

  /** `Content-Length` reads back, through `int()`, as the body's length in bytes. */
  lemma ContentLengthIsBodyLength(headers: map<string, string>, body: seq<byte>)
    ensures ParseInt(MultipartHeaders(headers, body)["Content-Length"]) == Some(|body|)
  {
    NatRoundTrip(|body|);
  }

  /** What `check_address_document` yields: an exception, no address, or the parsed address. */
  datatype AddressReply = AddressRaised | NoAddress | Address(value: AddressModel.AddressParser)

  /** The reply is parsed only when its `status` is truthy; a missing `status` or a failed parse raises. */
  function AddressReplyOf(reply: Option<Json>): (r: AddressReply)
    ensures r.NoAddress? <==> reply.Some? && reply.value.JObj? && "status" in reply.value.fields && !Truthy(reply.value.fields["status"])
    ensures r.Address? <==> (reply.Some? && reply.value.JObj? && "status" in reply.value.fields && Truthy(reply.value.fields["status"])
      && AddressModel.AddressParser.FromDict(reply.value).Some?)
    ensures r.Address? ==> Some(r.value) == AddressModel.AddressParser.FromDict(reply.value)
  {
    if reply.None? || !reply.value.JObj? || "status" !in reply.value.fields then AddressRaised
    else if !Truthy(reply.value.fields["status"]) then NoAddress
    else
      match AddressModel.AddressParser.FromDict(reply.value)
      case None => AddressRaised
      case Some(a) => Address(a)
  }

  /** The request and the decoding of `check_ine_image`: `None` is an exception. */
  function IneReplyOf(reply: Option<Json>): (r: Option<IdModel.IDResult>)
    ensures r.Some? <==> reply.Some? && IdModel.IDResult.FromDict(reply.value).Some?
    ensures r.Some? ==> r == IdModel.IDResult.FromDict(reply.value)
  {
    if reply.None? then None else IdModel.IDResult.FromDict(reply.value)
  }

  /** The reply of `check_face_spoofing`, decoded by `FaceSpoofing.from_dict`: `None` is an exception. */
  function SpoofReplyOf(reply: Option<Json>): (r: Option<SpoofFaceModel.FaceSpoofing>)
    ensures r.Some? <==> reply.Some? && SpoofFaceModel.FaceSpoofing.FromDict(reply.value).Some?
    ensures r.Some? ==> r == SpoofFaceModel.FaceSpoofing.FromDict(reply.value)
  {
    if reply.None? then None else SpoofFaceModel.FaceSpoofing.FromDict(reply.value)
  }

  /**
   * What the face-quality handler reads of a `FaceQuality` reply: its `status`
   * and whether its floating-point `payload` score exceeds 68.
   */
  datatype FaceQuality = FaceQuality(status: bool, aboveThreshold: bool)

  /** The NebuIA API client; `post(url, headers, body)` stands for the HTTPS request and `json.loads` of its reply. */
  class NebuIAAPI {
    var headers: map<string, string>
    const post: (string, map<string, string>, seq<byte>) -> Option<Json>
    /** `FaceQuality.from_dict` of a reply and the comparison of its score with 68; `None` when it raises. */
    const qualityOf: Json -> Option<FaceQuality>

    constructor (apiKey: string, apiSecret: string, post: (string, map<string, string>, seq<byte>) -> Option<Json>,
                 qualityOf: Json -> Option<FaceQuality>)
      ensures headers == map["api_key" := apiKey, "api_secret" := apiSecret, "Content-Type" := "application/json"]
      ensures this.post == post && this.qualityOf == qualityOf
    {
      headers := map["api_key" := apiKey, "api_secret" := apiSecret, "Content-Type" := "application/json"];
      this.post := post;
      this.qualityOf := qualityOf;
    }

    /** Sets the multipart `Content-Type` and the body's `Content-Length`, then posts the body. */
    method PostMultipart(url: string, body: seq<byte>) returns (reply: Option<Json>)
      modifies this
      ensures headers == MultipartHeaders(old(headers), body)
      ensures reply == post(url, headers, body)
    {
      headers := MultipartHeaders(headers, body);
      reply := post(url, headers, body);
    }

    /** `check_face_quality(report, image)` */
    method CheckFaceQuality(report: string, image: seq<byte>) returns (r: Option<FaceQuality>)
      modifies this
      ensures headers == MultipartHeaders(old(headers), FaceBody(image))
      ensures r == QualityReply(post, qualityOf, old(headers), report, image)
    {
      var body := FaceBody(image);
      var reply := PostMultipart("/api/v1/services/face/quality?report=" + report, body);
      r := if reply.None? then None else qualityOf(reply.value);
    }

    /** `check_face_spoofing(report, image)` */
    method CheckFaceSpoofing(report: string, image: seq<byte>) returns (r: Option<SpoofFaceModel.FaceSpoofing>)
      modifies this
      ensures headers == MultipartHeaders(old(headers), FaceBody(image))
      ensures r == SpoofReply(post, old(headers), report, image)
    {
      var body := FaceBody(image);
      var reply := PostMultipart("/api/v1/services/face?report=" + report, body);
      r := SpoofReplyOf(reply);
    }

    /** `check_address_document(report, pdf)` */
    method CheckAddressDocument(report: string, pdf: seq<byte>) returns (r: AddressReply)
      modifies this
      ensures headers == MultipartHeaders(old(headers), DocumentBody(pdf))
      ensures r == AddressReplyFor(post, old(headers), report, pdf)
    {
      var body := DocumentBody(pdf);
      var reply := PostMultipart("/api/v1/services/address?report=" + report, body);
      r := AddressReplyOf(reply);
    }

    /**
     * `check_ine_image(report, front, back)`: with an empty image the body is
     * never bound and the request raises, leaving the headers alone.
     */
    method CheckIneImage(report: string, front: seq<byte>, back: seq<byte>) returns (r: Option<IdModel.IDResult>)
      modifies this
      ensures front == [] || back == [] ==> r.None? && headers == old(headers)
      ensures front != [] && back != [] ==> headers == MultipartHeaders(old(headers), IneBody(front, back))
      ensures r == IneReply(post, old(headers), report, front, back)
      ensures headers == IneHeaders(old(headers), front, back)
    {
      if front == [] || back == [] {
        return None;
      }
      var body := IneBody(front, back);
      var reply := PostMultipart("/api/v1/services/id?report=" + report, body);
      r := IneReplyOf(reply);
    }
  }

  // the endpoints' replies, as functions of the request

  /** The face image's single-part body. */
  function FaceBody(image: seq<byte>): seq<byte> {
    SinglePartBody("face", "image.jpg", "image/jpeg", image)
  }

  /** The address document's single-part body. */
  function DocumentBody(pdf: seq<byte>): seq<byte> {
    SinglePartBody("document", "doc.pdf", "application/pdf", pdf)
  }

  /** The face-quality verdict for `image`, posted with the multipart headers built on `headers`. */
  function QualityReply(post: (string, map<string, string>, seq<byte>) -> Option<Json>, qualityOf: Json -> Option<FaceQuality>,
                        headers: map<string, string>, report: string, image: seq<byte>): Option<FaceQuality> {
    var reply := post("/api/v1/services/face/quality?report=" + report, MultipartHeaders(headers, FaceBody(image)), FaceBody(image));
    if reply.None? then None else qualityOf(reply.value)
  }

  /** The spoofing verdict for `image`. */
  function SpoofReply(post: (string, map<string, string>, seq<byte>) -> Option<Json>,
                      headers: map<string, string>, report: string, image: seq<byte>): Option<SpoofFaceModel.FaceSpoofing> {
    SpoofReplyOf(post("/api/v1/services/face?report=" + report, MultipartHeaders(headers, FaceBody(image)), FaceBody(image)))
  }

  /** The address verdict for `pdf`. */
  function AddressReplyFor(post: (string, map<string, string>, seq<byte>) -> Option<Json>,
                           headers: map<string, string>, report: string, pdf: seq<byte>): AddressReply {
    AddressReplyOf(post("/api/v1/services/address?report=" + report, MultipartHeaders(headers, DocumentBody(pdf)), DocumentBody(pdf)))
  }

  /** The ID verdict for the two sides; an empty side raises before anything is sent. */
  function IneReply(post: (string, map<string, string>, seq<byte>) -> Option<Json>,
                    headers: map<string, string>, report: string, front: seq<byte>, back: seq<byte>): Option<IdModel.IDResult> {
    if front == [] || back == [] then None
    else IneReplyOf(post("/api/v1/services/id?report=" + report, MultipartHeaders(headers, IneBody(front, back)), IneBody(front, back)))
  }

  /** The client's headers after `check_ine_image`. */
  function IneHeaders(headers: map<string, string>, front: seq<byte>, back: seq<byte>): map<string, string> {
    if front == [] || back == [] then headers else MultipartHeaders(headers, IneBody(front, back))
  }

  /** A spoofing verdict that lets the face through: the request succeeded and the face is live. */
  predicate Live(s: Option<SpoofFaceModel.FaceSpoofing>) {
    s.Some? && s.value.status && s.value.payload.status
  }

  /** A downloaded media file: its `Content-Type` header and its bytes. */
  datatype MediaFile = MediaFile(contentType: string, content: seq<byte>)

  const AddressNotPdfMessage := "Lo siento, por favor sube un documento PDF para poderlo analizar"
  const AddressFailedMessage := "Lo siento, no pude extraer la dirección del documento proporcionado, intenta con otro documento"
  const FaceNotImageMessage := "Parece que no enviaste una imagen, por favor envía la foto de tu rostro"
  const FaceErrorMessage := "Parece que tuvimos un error al procesar tu rostro, inténtalo nuevamente"
  const FaceLowQualityMessage := "Parece que tu rostro no cumple con nuestro estándar de calidad, por favor tómate otra foto y súbela"
  const FaceOkMessage := "Tu rostro se procesó correctamente"
  const BackSideMessage := "Por favor envía la parte trasera de tu INE"
  const NotImagesMessage := "Lo siento, pero los archivos proporcionados deben ser imágenes"
  const IneFailedMessage := "Lo siento, no pude procesar tu INE, por favor envia de nuevo la parte frontal de tu INE, si tienes dudas puedes consultar nuestro enlace https://docs.NebuiaFunctions.nebuia.com/help/verifications"

  /** The file a single-file handler works on: `images[0]`, downloaded; `None` when either raises. */
  function FirstFile(step: Mongo.Step, fetch: string -> Option<MediaFile>): (r: Option<MediaFile>)
    ensures r.Some? ==> |step.images| > 0 && r == fetch(step.images[0])
    ensures |step.images| > 0 ==> r == fetch(step.images[0])
  {
    if |step.images| == 0 then None else fetch(step.images[0])
  }

  /** Whether a single-file handler's file was downloaded and has an accepted content type. */
  predicate FileAccepted(step: Mongo.Step, fetch: string -> Option<MediaFile>) {
    FirstFile(step, fetch).Some? && FirstFile(step, fetch).value.contentType in step.accept
  }

  /** The message quoting an extracted address; the first address line must exist. */
  function AddressSummary(a: AddressModel.AddressParser): (r: string)
    requires |a.payload.address| > 0
    ensures var lead := "Tus datos extraidos fueron:\n        Dirección: ";
      var line := a.payload.address[0];
      var township := a.payload.zone.township;
      && |r| >= |lead| + |line| + |township|
      && r[..|lead|] == lead && r[|lead|..|lead| + |line|] == line
      && r[|r| - |township|..] == township
  {
    "Tus datos extraidos fueron:\n        Dirección: " + a.payload.address[0]
    + "\n        Código Postal: " + IntToString(a.payload.zone.cpId)
    + "\n        Barrio/Colonia: " + a.payload.zone.township
  }

  /** How `process_ine` proceeds before it calls the ID endpoint. */
  datatype IneGate = AskBackSide | NoImages | FetchFailed | NotImages | SendToApi(front: MediaFile, back: MediaFile)

  /**
   * One image asks for the back side; none raises on `images[0]`; otherwise
   * both files are downloaded and each must have an accepted content type.
   */
  function IneGateOf(step: Mongo.Step, fetch: string -> Option<MediaFile>): (r: IneGate)
    ensures r.AskBackSide? <==> |step.images| == 1
    ensures r.NoImages? <==> |step.images| == 0
    ensures r.NotImages? || r.SendToApi? ==> (|step.images| >= 2
      && fetch(step.images[0]).Some? && fetch(step.images[1]).Some?)
    ensures r.NotImages? <==> (|step.images| >= 2 && fetch(step.images[0]).Some? && fetch(step.images[1]).Some?
      && (fetch(step.images[0]).value.contentType !in step.accept || fetch(step.images[1]).value.contentType !in step.accept))
    ensures r.SendToApi? ==> (r.front == fetch(step.images[0]).value && r.back == fetch(step.images[1]).value
      && r.front.contentType in step.accept && r.back.contentType in step.accept)
  {
    var images := step.images;
    if |images| == 1 then AskBackSide
    else if |images| == 0 then NoImages
    else
      match (fetch(images[0]), fetch(images[1]))
      case (Some(f1), Some(f2)) =>
        if f1.contentType !in step.accept || f2.contentType !in step.accept then NotImages else SendToApi(f1, f2)
      case _ => FetchFailed
  }

  /** With exactly one image the outcome does not depend on any download: nothing is fetched. */
  lemma OneImageFetchesNothing(step: Mongo.Step, fetch1: string -> Option<MediaFile>, fetch2: string -> Option<MediaFile>)
    requires |step.images| == 1
    ensures IneGateOf(step, fetch1) == IneGateOf(step, fetch2) == AskBackSide
  {
  }

  /**
   * What the media tools consult besides the store: the API's `post` and
   * `qualityOf`, the download `fetch` and the ID summary `ineSummary`.
   */
  datatype MediaEnv = MediaEnv(
    post: (string, map<string, string>, seq<byte>) -> Option<Json>,
    qualityOf: Json -> Option<FaceQuality>,
    fetch: string -> Option<MediaFile>,
    ineSummary: IdModel.IDResult -> string)

  /** A media tool's reply (`None`: it raised), the `clients` collection after it and the API client's headers after it. */
  datatype Outcome = Outcome(reply: Option<StructuredResponse>, clients: map<string, Mongo.ClientRecord>, headers: map<string, string>)

  const FaceOk := StructuredResponse(true, FaceOkMessage, None)

  /**
   * What `check_face_spoofing` does with the spoofing verdict: a live face
   * succeeds and leaves the store alone; any other verdict that does not raise
   * resets the face step's images.
   */
  function SpoofVerdict(spoof: Option<SpoofFaceModel.FaceSpoofing>, clients: map<string, Mongo.ClientRecord>,
                        clientId: string, h: map<string, string>): (o: Outcome)
    ensures o.headers == h
    ensures o.reply == Some(FaceOk) <==> Live(spoof)
    ensures spoof.None? ==> o.reply.None? && o.clients == clients
    ensures spoof.Some? && !Live(spoof) ==>
      o.reply == Some(Error(FaceErrorMessage)) && o.clients == Mongo.ResetClient(clients, clientId, "check_face_valid")
    ensures o.reply.None? || o.reply.value.status ==> o.clients == clients
    ensures o.clients == clients || o.clients == Mongo.ResetClient(clients, clientId, "check_face_valid")
  {
    if spoof.None? then Outcome(None, clients, h)
    else if spoof.value.status && spoof.value.payload.status then Outcome(Some(FaceOk), clients, h)
    else Outcome(Some(Error(FaceErrorMessage)), Mongo.ResetClient(clients, clientId, "check_face_valid"), h)
  }

  /** `check_face_spoofing(client_id, file_content)`: the report of an unknown client raises before any request. */
  function SpoofOutcome(env: MediaEnv, clients: map<string, Mongo.ClientRecord>, headers: map<string, string>,
                        clientId: string, content: seq<byte>): (o: Outcome)
    ensures clientId !in clients ==> o == Outcome(None, clients, headers)
    ensures clientId in clients ==> o.headers == MultipartHeaders(headers, FaceBody(content))
    ensures o.reply == Some(FaceOk) <==>
      clientId in clients && Live(SpoofReply(env.post, headers, clients[clientId].report, content))
    ensures o.reply.Some? && !o.reply.value.status ==> o.clients == Mongo.ResetClient(clients, clientId, "check_face_valid")
    ensures o.reply.None? || o.reply.value.status ==> o.clients == clients
    ensures o.clients == clients || o.clients == Mongo.ResetClient(clients, clientId, "check_face_valid")
  {
    if clientId !in clients then Outcome(None, clients, headers)
    else SpoofVerdict(SpoofReply(env.post, headers, clients[clientId].report, content), clients, clientId,
                      MultipartHeaders(headers, FaceBody(content)))
  }

  /**
   * What `check_face_quality` does with the quality verdict `q` and, above the
   * threshold, the spoofing verdict `spoof`; `h1` are the headers after the
   * quality request and `h2` after the spoofing request. The face succeeds
   * exactly when the quality `status` is true, the score is above the
   * threshold and the face is live; once a true quality verdict has been acted
   * on, the face step's images are reset.
   */
  function QualityVerdict(q: Option<FaceQuality>, spoof: Option<SpoofFaceModel.FaceSpoofing>,
                          clients: map<string, Mongo.ClientRecord>, clientId: string,
                          h1: map<string, string>, h2: map<string, string>): (o: Outcome)
    ensures q.None? ==> o == Outcome(None, clients, h1)
    ensures q.Some? && !q.value.status ==> o == Outcome(Some(Error(FaceErrorMessage)), clients, h1)
    ensures q.Some? && q.value.status && !q.value.aboveThreshold ==>
      o == Outcome(Some(Error(FaceLowQualityMessage)), Mongo.ResetClient(clients, clientId, "check_face_valid"), h1)
    ensures q.Some? && q.value.status && q.value.aboveThreshold ==>
      && o.headers == h2
      && (spoof.None? ==> o.reply.None? && o.clients == clients)
      && (spoof.Some? ==>
            o.clients == Mongo.ResetClient(clients, clientId, "check_face_valid")
            && o.reply == Some(if Live(spoof) then FaceOk else Error(FaceErrorMessage)))
    ensures o.reply.Some? && o.reply.value.status <==>
      q.Some? && q.value.status && q.value.aboveThreshold && Live(spoof)
    ensures o.reply.Some? && o.reply.value.status ==> o.reply.value == FaceOk
    ensures o.clients == clients || o.clients == Mongo.ResetClient(clients, clientId, "check_face_valid")
  {
    if q.None? then Outcome(None, clients, h1)
    else if !q.value.status then Outcome(Some(Error(FaceErrorMessage)), clients, h1)
    else if q.value.aboveThreshold then
      var s := SpoofVerdict(spoof, clients, clientId, h2);
      if s.reply.None? then s
      else
        Mongo.ResetClientIdempotent(clients, clientId, "check_face_valid");
        Outcome(s.reply, Mongo.ResetClient(s.clients, clientId, "check_face_valid"), s.headers)
    else Outcome(Some(Error(FaceLowQualityMessage)), Mongo.ResetClient(clients, clientId, "check_face_valid"), h1)
  }

  /**
   * `check_face_quality(step_details, client_id)`: the first file must be
   * downloaded and accepted and the client known before the quality request.
   */
  function QualityOutcome(env: MediaEnv, clients: map<string, Mongo.ClientRecord>, headers: map<string, string>,
                          step: Mongo.Step, clientId: string): (o: Outcome)
    ensures FirstFile(step, env.fetch).None? ==> o == Outcome(None, clients, headers)
    ensures FirstFile(step, env.fetch).Some? && !FileAccepted(step, env.fetch) ==>
      o == Outcome(Some(Error(FaceNotImageMessage)), clients, headers)
    ensures FileAccepted(step, env.fetch) && clientId !in clients ==> o == Outcome(None, clients, headers)
    ensures o.reply.Some? && o.reply.value.status ==> o.reply.value == FaceOk
    ensures o.clients == clients || o.clients == Mongo.ResetClient(clients, clientId, "check_face_valid")
  {
    match FirstFile(step, env.fetch)
    case None => Outcome(None, clients, headers)
    case Some(file) =>
      if file.contentType !in step.accept then Outcome(Some(Error(FaceNotImageMessage)), clients, headers)
      else if clientId !in clients then Outcome(None, clients, headers)
      else
        var report := clients[clientId].report;
        var h1 := MultipartHeaders(headers, FaceBody(file.content));
        QualityVerdict(QualityReply(env.post, env.qualityOf, headers, report, file.content),
                       SpoofReply(env.post, h1, report, file.content),
                       clients, clientId, h1, MultipartHeaders(h1, FaceBody(file.content)))
  }

  /**
   * For an accepted face of a known client, the outcome is the verdict on the
   * quality reply to the face, and on the spoofing reply to the same face sent
   * with the headers the quality request left.
   */
  lemma QualityVerdicts(env: MediaEnv, clients: map<string, Mongo.ClientRecord>, headers: map<string, string>,
                        step: Mongo.Step, clientId: string)
    requires FileAccepted(step, env.fetch) && clientId in clients
    ensures var content := FirstFile(step, env.fetch).value.content;
      var report := clients[clientId].report;
      var h1 := MultipartHeaders(headers, FaceBody(content));
      QualityOutcome(env, clients, headers, step, clientId)
      == QualityVerdict(QualityReply(env.post, env.qualityOf, headers, report, content),
                        SpoofReply(env.post, h1, report, content), clients, clientId, h1, MultipartHeaders(h1, FaceBody(content)))
  {
  }

  /**
   * What `check_address_document` does with the address verdict `a`: a true
   * `status` with an address line succeeds with the summary of that address;
   * a false `status` or no address fails; both reset the address step's
   * images. Quoting a missing address line raises.
   */
  function AddressVerdict(a: AddressReply, clients: map<string, Mongo.ClientRecord>, clientId: string,
                          h: map<string, string>): (o: Outcome)
    ensures o.headers == h
    ensures a.AddressRaised? ==> o.reply.None? && o.clients == clients
    ensures a.NoAddress? || (a.Address? && !a.value.status) ==>
      o.reply == Some(Error(AddressFailedMessage)) && o.clients == Mongo.ResetClient(clients, clientId, "check_address_valid")
    ensures a.Address? && a.value.status && |a.value.payload.address| == 0 ==> o.reply.None? && o.clients == clients
    ensures a.Address? && a.value.status && |a.value.payload.address| > 0 ==>
      o.reply == Some(StructuredResponse(true, AddressSummary(a.value), None))
      && o.clients == Mongo.ResetClient(clients, clientId, "check_address_valid")
    ensures o.reply.Some? && o.reply.value.status <==> a.Address? && a.value.status && |a.value.payload.address| > 0
    ensures o.clients == clients || o.clients == Mongo.ResetClient(clients, clientId, "check_address_valid")
  {
    if a.AddressRaised? then Outcome(None, clients, h)
    else if a.NoAddress? || !a.value.status then
      Outcome(Some(Error(AddressFailedMessage)), Mongo.ResetClient(clients, clientId, "check_address_valid"), h)
    else if |a.value.payload.address| == 0 then Outcome(None, clients, h)
    else Outcome(Some(StructuredResponse(true, AddressSummary(a.value), None)),
                 Mongo.ResetClient(clients, clientId, "check_address_valid"), h)
  }

  /**
   * `check_address_document(step_details, client_id)`: the first file must be
   * downloaded and accepted and the client known before the address request.
   */
  function AddressOutcome(env: MediaEnv, clients: map<string, Mongo.ClientRecord>, headers: map<string, string>,
                          step: Mongo.Step, clientId: string): (o: Outcome)
    ensures FirstFile(step, env.fetch).None? ==> o == Outcome(None, clients, headers)
    ensures FirstFile(step, env.fetch).Some? && !FileAccepted(step, env.fetch) ==>
      o == Outcome(Some(Error(AddressNotPdfMessage)), clients, headers)
    ensures FileAccepted(step, env.fetch) && clientId !in clients ==> o == Outcome(None, clients, headers)
    ensures o.clients == clients || o.clients == Mongo.ResetClient(clients, clientId, "check_address_valid")
  {
    match FirstFile(step, env.fetch)
    case None => Outcome(None, clients, headers)
    case Some(file) =>
      if file.contentType !in step.accept then Outcome(Some(Error(AddressNotPdfMessage)), clients, headers)
      else if clientId !in clients then Outcome(None, clients, headers)
      else AddressVerdict(AddressReplyFor(env.post, headers, clients[clientId].report, file.content), clients, clientId,
                          MultipartHeaders(headers, DocumentBody(file.content)))
  }

  /** For an accepted document of a known client, the outcome is the verdict on the address reply to that document. */
  lemma AddressVerdicts(env: MediaEnv, clients: map<string, Mongo.ClientRecord>, headers: map<string, string>,
                        step: Mongo.Step, clientId: string)
    requires FileAccepted(step, env.fetch) && clientId in clients
    ensures var content := FirstFile(step, env.fetch).value.content;
      AddressOutcome(env, clients, headers, step, clientId)
      == AddressVerdict(AddressReplyFor(env.post, headers, clients[clientId].report, content), clients, clientId,
                        MultipartHeaders(headers, DocumentBody(content)))
  {
  }

  /**
   * `process_ine(step_details, client_id)`, with the step whose images a
   * content-type failure resets as a parameter: the ID succeeds exactly when
   * both files are accepted and the ID verdict has a true `status`, and then
   * the reply is the summary of that verdict and the store is left alone.
   */
  function IneOutcome(env: MediaEnv, clients: map<string, Mongo.ClientRecord>, headers: map<string, string>,
                      step: Mongo.Step, clientId: string, typeFailureReset: string): (o: Outcome)
    ensures var gate := IneGateOf(step, env.fetch);
      && (gate.AskBackSide? ==> o == Outcome(Some(Error(BackSideMessage)), clients, headers))
      && (gate.NoImages? || gate.FetchFailed? ==> o == Outcome(None, clients, headers))
      && (gate.NotImages? ==>
            o == Outcome(Some(Error(NotImagesMessage)), Mongo.ResetClient(clients, clientId, typeFailureReset), headers))
      && (gate.SendToApi? && clientId !in clients ==> o == Outcome(None, clients, headers))
    ensures var gate := IneGateOf(step, env.fetch);
      gate.SendToApi? && clientId in clients ==>
      var res := IneReply(env.post, headers, clients[clientId].report, gate.front.content, gate.back.content);
      && o.headers == IneHeaders(headers, gate.front.content, gate.back.content)
      && (res.None? ==> o.reply.None? && o.clients == clients)
      && (res.Some? && res.value.status ==>
            o.reply == Some(StructuredResponse(true, env.ineSummary(res.value), None)) && o.clients == clients)
      && (res.Some? && !res.value.status ==>
            o.reply == Some(Error(IneFailedMessage)) && o.clients == Mongo.ResetClient(clients, clientId, "check_ine_valid"))
    ensures o.reply.Some? && o.reply.value.status <==>
      var gate := IneGateOf(step, env.fetch);
      && gate.SendToApi? && clientId in clients
      && var res := IneReply(env.post, headers, clients[clientId].report, gate.front.content, gate.back.content);
      res.Some? && res.value.status
    ensures o.clients == clients || o.clients == Mongo.ResetClient(clients, clientId, typeFailureReset)
      || o.clients == Mongo.ResetClient(clients, clientId, "check_ine_valid")
  {
    match IneGateOf(step, env.fetch)
    case AskBackSide => Outcome(Some(Error(BackSideMessage)), clients, headers)
    case NoImages => Outcome(None, clients, headers)
    case FetchFailed => Outcome(None, clients, headers)
    case NotImages => Outcome(Some(Error(NotImagesMessage)), Mongo.ResetClient(clients, clientId, typeFailureReset), headers)
    case SendToApi(front, back) =>
      if clientId !in clients then Outcome(None, clients, headers)
      else
        var result := IneReply(env.post, headers, clients[clientId].report, front.content, back.content);
        var h := IneHeaders(headers, front.content, back.content);
        if result.None? then Outcome(None, clients, h)
        else if result.value.status then Outcome(Some(StructuredResponse(true, env.ineSummary(result.value), None)), clients, h)
        else Outcome(Some(Error(IneFailedMessage)), Mongo.ResetClient(clients, clientId, "check_ine_valid"), h)
  }

  /**
   * The media tool registered under a step's name, run: the ID tool is the
   * corrected one. With one ID image nothing is fetched or changed, and no
   * tool touches another client's record or adds or removes a record.
   */
  function MediaToolOutcome(env: MediaEnv, h: MediaHandler, clients: map<string, Mongo.ClientRecord>,
                            headers: map<string, string>, step: Mongo.Step, clientId: string): (o: Outcome)
    ensures h == ProcessIneHandler && |step.images| == 1 ==> o == Outcome(Some(Error(BackSideMessage)), clients, headers)
  {
    match h
    case CheckAddressDocument => AddressOutcome(env, clients, headers, step, clientId)
    case CheckFaceQuality => QualityOutcome(env, clients, headers, step, clientId)
    case ProcessIneHandler => IneOutcome(env, clients, headers, step, clientId, "check_ine_valid")
  }

  /** No media tool adds or removes a record, touches another client's record, or changes the client's report. */
  lemma MediaToolKeepsOthers(env: MediaEnv, h: MediaHandler, clients: map<string, Mongo.ClientRecord>,
                             headers: map<string, string>, step: Mongo.Step, clientId: string)
    ensures var o := MediaToolOutcome(env, h, clients, headers, step, clientId);
      && o.clients.Keys == clients.Keys
      && (forall id :: id in clients && id != clientId ==> o.clients[id] == clients[id])
      && (clientId in clients ==> o.clients[clientId].report == clients[clientId].report)
  {
    var o := MediaToolOutcome(env, h, clients, headers, step, clientId);
    match h
    case CheckAddressDocument =>
      assert o.clients == clients || o.clients == Mongo.ResetClient(clients, clientId, "check_address_valid");
    case CheckFaceQuality =>
      assert o.clients == clients || o.clients == Mongo.ResetClient(clients, clientId, "check_face_valid");
    case ProcessIneHandler =>
      assert o.clients == clients || o.clients == Mongo.ResetClient(clients, clientId, "check_ine_valid");
  }

  /**
   * The media tools of the NebuIA client. `fetch(url)` stands for the
   * authenticated download (`None`: it raised), `ineSummary` for the text that
   * quotes the extracted ID data.
   */
  class NebuiaFunctions {
    const db: Mongo.ClientStore
    const nebuia: NebuIAAPI
    const fetch: string -> Option<MediaFile>
    const ineSummary: IdModel.IDResult -> string

    constructor (db: Mongo.ClientStore, nebuia: NebuIAAPI, fetch: string -> Option<MediaFile>, ineSummary: IdModel.IDResult -> string)
      ensures this.db == db && this.nebuia == nebuia && this.fetch == fetch && this.ineSummary == ineSummary
    {
      this.db := db;
      this.nebuia := nebuia;
      this.fetch := fetch;
      this.ineSummary := ineSummary;
    }

    /** What the tools consult besides the store. */
    function Env(): MediaEnv {
      MediaEnv(nebuia.post, nebuia.qualityOf, fetch, ineSummary)
    }

    /** `process_ine` with the step whose images a content-type failure resets as a parameter; `None` is an exception. */
    method ProcessIneResetting(step: Mongo.Step, clientId: string, typeFailureReset: string) returns (r: Option<StructuredResponse>)
      modifies db, nebuia
      ensures Outcome(r, db.clients, nebuia.headers) == IneOutcome(Env(), old(db.clients), old(nebuia.headers), step, clientId, typeFailureReset)
    {
      var gate := IneGateOf(step, fetch);
      match gate {
        case AskBackSide =>
          return Some(Error(BackSideMessage));
        case NoImages =>
          return None;
        case FetchFailed =>
          return None;
        case NotImages =>
          var _ := db.ResetImagesToStep(clientId, typeFailureReset);
          return Some(Error(NotImagesMessage));
        case SendToApi(front, back) =>
          var client := db.ClientExist(clientId);
          if client.None? {
            return None;
          }
          var result := RequestIne(client.value.report, front.content, back.content);
          if result.None? {
            return None;
          }
          if result.value.status {
            return Some(StructuredResponse(true, ineSummary(result.value), None));
          }
          var _ := db.ResetImagesToStep(clientId, "check_ine_valid");
          return Some(Error(IneFailedMessage));
      }
    }

    /** The ID endpoint's verdict on the two sides, as `check_ine_image` returns it. */
    method RequestIne(report: string, front: seq<byte>, back: seq<byte>) returns (r: Option<IdModel.IDResult>)
      modifies nebuia
      ensures r == IneReply(nebuia.post, old(nebuia.headers), report, front, back)
      ensures nebuia.headers == IneHeaders(old(nebuia.headers), front, back)
    {
      r := nebuia.CheckIneImage(report, front, back);
    }

    /**
     * `check_address_document(step_details, client_id)`: the first file must be
     * accepted; afterwards the step's images are reset whatever the verdict,
     * except when decoding or quoting the address raises.
     */
    method CheckAddressDocument(step: Mongo.Step, clientId: string) returns (r: Option<StructuredResponse>)
      modifies db, nebuia
      ensures Outcome(r, db.clients, nebuia.headers) == AddressOutcome(Env(), old(db.clients), old(nebuia.headers), step, clientId)
    {
      var file := FirstFile(step, fetch);
      if file.None? {
        return None;
      }
      var ok := CheckFileContent(step, file.value.contentType);
      if !ok {
        return Some(Error(AddressNotPdfMessage));
      }
      var client := db.ClientExist(clientId);
      if client.None? {
        return None;
      }
      var address := RequestAddress(client.value.report, file.value.content);
      if address.AddressRaised? {
        return None;
      }
      if address.NoAddress? || !address.value.status {
        var _ := db.ResetImagesToStep(clientId, "check_address_valid");
        return Some(Error(AddressFailedMessage));
      }
      if |address.value.payload.address| == 0 {
        return None;
      }
      var message := AddressSummary(address.value);
      var _ := db.ResetImagesToStep(clientId, "check_address_valid");
      return Some(StructuredResponse(true, message, None));
    }

    /** The address endpoint's verdict on a document, as `NebuIAAPI.check_address_document` returns it. */
    method RequestAddress(report: string, pdf: seq<byte>) returns (r: AddressReply)
      modifies nebuia
      ensures r == AddressReplyFor(nebuia.post, old(nebuia.headers), report, pdf)
      ensures nebuia.headers == MultipartHeaders(old(nebuia.headers), DocumentBody(pdf))
    {
      r := nebuia.CheckAddressDocument(report, pdf);
    }

    /** `check_face_spoofing(client_id, file_content)` */
    method CheckFaceSpoofing(clientId: string, content: seq<byte>) returns (r: Option<StructuredResponse>)
      modifies db, nebuia
      ensures Outcome(r, db.clients, nebuia.headers) == SpoofOutcome(Env(), old(db.clients), old(nebuia.headers), clientId, content)
    {
      var client := db.ClientExist(clientId);
      if client.None? {
        return None;
      }
      var spoofing := nebuia.CheckFaceSpoofing(client.value.report, content);
      if spoofing.None? {
        return None;
      }
      if spoofing.value.status && spoofing.value.payload.status {
        return Some(FaceOk);
      }
      var _ := db.ResetImagesToStep(clientId, "check_face_valid");
      return Some(Error(FaceErrorMessage));
    }

    /** `check_face_quality(step_details, client_id)` */
    method CheckFaceQuality(step: Mongo.Step, clientId: string) returns (r: Option<StructuredResponse>)
      modifies db, nebuia
      ensures Outcome(r, db.clients, nebuia.headers) == QualityOutcome(Env(), old(db.clients), old(nebuia.headers), step, clientId)
    {
      var file := FirstFile(step, fetch);
      if file.None? {
        return None;
      }
      var ok := CheckFileContent(step, file.value.contentType);
      if !ok {
        return Some(Error(FaceNotImageMessage));
      }
      var client := db.ClientExist(clientId);
      if client.None? {
        return None;
      }
      var quality := nebuia.CheckFaceQuality(client.value.report, file.value.content);
      if quality.None? {
        return None;
      }
      if !quality.value.status {
        return Some(Error(FaceErrorMessage));
      }
      if quality.value.aboveThreshold {
        r := CheckFaceSpoofing(clientId, file.value.content);
        if r.None? {
          return None;
        }
        var _ := db.ResetImagesToStep(clientId, "check_face_valid");
        return r;
      }
      var _ := db.ResetImagesToStep(clientId, "check_face_valid");
      return Some(Error(FaceLowQualityMessage));
    }

    /** Runs the media handler `h` registered under a step's name. */
    method RunMediaTool(h: MediaHandler, step: Mongo.Step, clientId: string) returns (r: Option<StructuredResponse>)
      modifies db, nebuia
      ensures Outcome(r, db.clients, nebuia.headers) == MediaToolOutcome(Env(), h, old(db.clients), old(nebuia.headers), step, clientId)
    {
      match h {
        case CheckAddressDocument => r := CheckAddressDocument(step, clientId);
        case CheckFaceQuality => r := CheckFaceQuality(step, clientId);
        case ProcessIneHandler => r := ProcessIne(step, clientId);
      }
    }

    /** `process_ine` as written: a content-type failure resets the face step's images. */
    method ProcessIneAsWritten(step: Mongo.Step, clientId: string) returns (r: Option<StructuredResponse>)
      modifies db, nebuia
      ensures Outcome(r, db.clients, nebuia.headers) == IneOutcome(Env(), old(db.clients), old(nebuia.headers), step, clientId, "check_face_valid")
    {
      r := ProcessIneResetting(step, clientId, "check_face_valid");
    }

    /** `process_ine` as intended: a content-type failure resets the ID step's own images. */
    method ProcessIne(step: Mongo.Step, clientId: string) returns (r: Option<StructuredResponse>)
      modifies db, nebuia
      ensures Outcome(r, db.clients, nebuia.headers) == IneOutcome(Env(), old(db.clients), old(nebuia.headers), step, clientId, "check_ine_valid")
    {
      r := ProcessIneResetting(step, clientId, "check_ine_valid");
    }
  }

  // the reset target of a content-type failure

  /**
   * As written: resetting the face step leaves the ID step's images in place,
   * so the next upload is appended behind them and the same two rejected files
   * are fetched again.
   */
  lemma FaceResetKeepsIneImages(steps: seq<Mongo.Step>, url: string)
    requires Mongo.FirstWith(steps, "check_ine_valid").Some?
    ensures var i := Mongo.FirstWith(steps, "check_ine_valid").value;
      var after := Mongo.PushImage(Mongo.ResetImages(steps, "check_face_valid"), "check_ine_valid", url);
      && Mongo.ResetImages(steps, "check_face_valid")[i] == steps[i]
      && |after[i].images| == |steps[i].images| + 1
      && after[i].images[..|steps[i].images|] == steps[i].images
  {
    var i := Mongo.FirstWith(steps, "check_ine_valid").value;
    var reset := Mongo.ResetImages(steps, "check_face_valid");
    Mongo.SameNamesSameFirst(steps, reset, "check_ine_valid");
    assert reset[i] == steps[i];
    Mongo.PushImageAppends(reset, "check_ine_valid", url);
  }

  /** A journey where the rejected pair survives the as-written reset. */
  lemma FaceResetCounterexample()
    ensures var ine := Mongo.Step("check_ine_valid", false, ["front.pdf", "back.pdf"], true, ["image/jpeg"], "", "", "");
      Mongo.ResetImages([ine], "check_face_valid") == [ine]
  {
  }

  /** As intended: the ID step starts over with no images, so the next upload is its first. */
  lemma IneResetClearsIneImages(steps: seq<Mongo.Step>, url: string)
    requires Mongo.FirstWith(steps, "check_ine_valid").Some?
    ensures var i := Mongo.FirstWith(steps, "check_ine_valid").value;
      Mongo.PushImage(Mongo.ResetImages(steps, "check_ine_valid"), "check_ine_valid", url)[i].images == [url]
  {
    var i := Mongo.FirstWith(steps, "check_ine_valid").value;
    var reset := Mongo.ResetImages(steps, "check_ine_valid");
    Mongo.SameNamesSameFirst(steps, reset, "check_ine_valid");
    Mongo.PushImageAppends(reset, "check_ine_valid", url);
  }
}
