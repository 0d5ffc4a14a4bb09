# WhatsApp identity-verification bot, modelled in Dafny

The repository is a WhatsApp bot that walks a client through an identity
check one step at a time. Each client record in MongoDB holds an ordered
list of steps. The first incomplete step is the active one. A Twilio webhook
(`main.py`) routes each incoming message:

- a button press promotes the client's pending steps;
- an upload goes to the media handler, which runs one of the NebuIA checks:
  the INE voter ID (front and back), a face-quality or liveness check, or a
  proof of address;
- a text message goes to the text handler. It asks a function-calling LLM to
  pick one of the step's tools, executes the tool calls the reply contains,
  and turns the outcome into a reply.

The controller then writes the reply. When the step is complete it marks the
step done in MongoDB and announces the next one.

The model has one Dafny module per core source file, plus three shared ones:

| module | source |
|---|---|
| `EngineUtils` | `engine/utils.py` |
| `ModelCalling` | `engine/model_calling.py` |
| `Mongo` | `database/mongo.py` |
| `TextHandler` | `handler/text_handler.py` |
| `GenericHandler` | `handler/generic_handler.py` |
| `HandlerEffects` | the replies and step changes both handlers ask the controller for |
| `Controller` | `controllers/default_controller.py` |
| `WhatsAppBot` | `main.py` |
| `Response` | `implementations/response.py` |
| `Nebuia` | `implementations/nebuia_functions.py` |
| `IdModel` | `models/id.py` |
| `AddressModel` | `models/address.py` |
| `SpoofFaceModel` | `models/spoof_face.py` |
| `Json`, `PyText`, `Wrappers` | decoded JSON values; the Python string and integer built-ins the code relies on; `Option` |

How the model is built:

- **The database is a class.** `Mongo.ClientStore` holds the `clients`
  collection as a map from WhatsApp id to record. Each method updates that
  map exactly as the corresponding `update_one`, `insert_one` or
  `delete_one` does. The positional `steps.$` update is modelled as "the
  first step with that function name".
- **`ToolCaller` is a class.** `ModelCalling.ToolCaller` records its effects
  on the outside world: the `report` key it keeps in Redis, and the tools it
  invokes.
- **Handlers return effects.** The handlers return the replies and step
  changes they ask for as a list of `HandlerEffects.Effect` values.
  `Controller.Controller.PerformEffects` carries them out against the store
  and an outgoing-message trace. `Controller.RunEffects` is the reference
  reading of that loop.
- **Oracles are parameters.** Everything the bot sends to another service is
  a function-typed field or parameter: the LLM, the XML parser, `json.loads`,
  `ast.literal_eval`, the tool-schema validator, the tools themselves, the
  NebuIA HTTP endpoint and the media download.
- **Python exceptions are modelled as values.** An exception the code lets
  escape is an explicit `Raised` or `None` outcome, not a precondition.

## Model

| member | source | states |
|---|---|---|
| `Json.Get` | models/id.py:45 | `obj.get(key)`: the stored value when the key is present, `None` (JNull) otherwise | |
| `Json.GetOr` | engine/model_calling.py:45 | `dict.get(key, default)`: the stored value when present, the default otherwise |
| `Json.FalsyValues` | handler/text_handler.py:123 | Python truthiness: a value is false iff it is `None`, `False`, `0`, an empty string, an empty list or an empty object |
| `Json.FromStr` | models/id.py:7-9 | accepts exactly the JSON strings, and returns the string it was given |
| `Json.FromBool` | models/id.py:12-14 | accepts exactly the JSON booleans, and returns the value it was given |
| `Json.FromInt` | models/id.py:22-24 | accepts exactly the JSON integers; a boolean is rejected, as `not isinstance(x, bool)` demands |
| `Json.MapAll` | models/id.py:29 | `[f(y) for y in x]` succeeds iff every element decodes; the result is element-wise, with the same length |
| `Json.FromList` | models/id.py:27-29 | accepts a list iff every element decodes; the result has the same length and is decoded element by element |
| `Json.ToList` | models/id.py:217 | encodes a list element by element, keeping its length and order |
| `Json.FromListToList` | models/id.py:27-29 | decoding an encoded list gives it back whenever each element round-trips |
| `Json.FromIntString` | models/id.py:45 | `int(from_str(v))`: a non-string is rejected; for a string the result is exactly Python's `int()` of the text, failing where `int()` raises |
| `Json.ToIntString` | models/id.py:52 | `from_str(str(i))` writes a JSON string |
| `Json.IntStringFieldRoundTrip` | models/id.py:45-52 | a decimal-string field read back with `int()` gives the same integer |
| `PyText.Strip` | engine/utils.py:30 | `str.strip()`: no longer than the input, and no Python whitespace at either end |
| `PyText.StripIsSlice` | engine/utils.py:30 | `str.strip()` returns the contiguous slice of the input that starts where the leading whitespace ends |
| `PyText.StripCutsSpace` | engine/utils.py:30 | everything `str.strip()` cuts off before and after that slice is Python whitespace |
| `PyText.Lower` | engine/utils.py:31 | `str.lower()` on ASCII letters: keeps the length |
| `PyText.Split` | engine/utils.py:22 | `s.split('\n')`: at least one piece, and no piece contains the separator |
| `PyText.SplitJoin` | engine/utils.py:22 | joining the pieces of a split with the separator gives back the text |
| `PyText.SplitOnce` | engine/utils.py:37 | `line.split(':', 1)` on a line with a colon: the text before the first colon (which has none) and the rest, rejoined to the line |
| `PyText.IntToString` | models/id.py:52 | `str(i)` is never empty |
| `PyText.ParseInt` | models/id.py:45 | `int(s)`: a blank text raises ValueError |
| `PyText.IntStringRoundTrip` | models/id.py:45-52 | `int(str(i)) == i` for every integer, negative ones included |
| `IdModel.DocumentNumberClass.FromDict` | models/id.py:42-48 | a non-object or a non-string `value` is rejected; `valid` is decoded as a boolean |
| `IdModel.DocumentNumberClass.ToDict` | models/id.py:50-55 | writes exactly the keys `value`, `hash` and `valid` |
| `IdModel.DocumentNumberRoundTrip` | models/id.py:42-55 | `from_dict(to_dict(x)) == x` |
| `IdModel.CheckDigit.FromDict` | models/id.py:72-80 | a non-object is rejected; `dob` is decoded as a document-number record |
| `IdModel.CheckDigit.ToDict` | models/id.py:82-89 | writes exactly the five check-digit keys |
| `IdModel.CheckDigitRoundTrip` | models/id.py:72-89 | `from_dict(to_dict(x)) == x` |
| `IdModel.Country.FromDict` | models/id.py:100-105 | accepts exactly objects whose `abbr` and `full` are strings, and returns them |
| `IdModel.Country.ToDict` | models/id.py:107-111 | writes exactly `abbr` and `full` |
| `IdModel.CountryRoundTrip` | models/id.py:100-111 | `from_dict(to_dict(x)) == x` |
| `IdModel.PayloadDob.FromDict` | models/id.py:126-133 | `year` and `day` must be JSON integers, and `original` a decimal string |
| `IdModel.PayloadDob.ToDict` | models/id.py:135-141 | writes exactly `year`, `month`, `day` and `original` |
| `IdModel.PayloadDobRoundTrip` | models/id.py:126-141 | `from_dict(to_dict(x)) == x` |
| `IdModel.Extra.FromDict` | models/id.py:156-163 | `register_year` and `section` are decimal strings, parsed with `int()` |
| `IdModel.Extra.ToDict` | models/id.py:165-171 | writes exactly the four extra keys |
| `IdModel.ExtraRoundTrip` | models/id.py:156-171 | `from_dict(to_dict(x)) == x` |
| `IdModel.Description.FromDict` | models/id.py:182-187 | accepts exactly objects whose two surname fields are strings |
| `IdModel.Description.ToDict` | models/id.py:189-193 | writes exactly the two surname keys |
| `IdModel.DescriptionRoundTrip` | models/id.py:182-193 | `from_dict(to_dict(x)) == x` |
| `IdModel.Names.FromDict` | models/id.py:206-212 | a non-object is rejected; `names` is decoded as a list of strings, in order |
| `IdModel.Names.ToDict` | models/id.py:214-219 | writes exactly `last_name`, `names` and `description` |
| `Json.StringsRoundTrip` | models/id.py:210-217 | a list of strings encoded and decoded with `from_list(from_str, ...)` comes back unchanged |
| `IdModel.NamesRoundTrip` | models/id.py:206-219 | `from_dict(to_dict(x)) == x` |
| `IdModel.OptionalElement.FromDict` | models/id.py:230-235 | accepts exactly objects whose `value` is a string and `valid` a boolean |
| `IdModel.OptionalElement.ToDict` | models/id.py:237-241 | writes exactly `value` and `valid` |
| `IdModel.OptionalsRoundTrip` | models/id.py:321-342 | the `optionals` list round-trips element by element |
| `IdModel.Validations.FromDict` | models/id.py:252-257 | accepts exactly objects whose two validation flags are booleans |
| `IdModel.Validations.ToDict` | models/id.py:259-263 | writes exactly the two validation keys |
| `IdModel.ValidationsRoundTrip` | models/id.py:252-263 | `from_dict(to_dict(x)) == x` |
| `IdModel.Payload.FromDict` | models/id.py:304-324 | a non-object is rejected; `address` and `optionals` are decoded element by element |
| `IdModel.Payload.FromFields` | models/id.py:306-324 | the field-by-field decoding of a payload object, given what it holds under each key |
| `IdModel.Payload.ToDict` | models/id.py:326-345 | writes a JSON object |
| `IdModel.PayloadFromFields` | models/id.py:304-324 | an object whose every field decodes to the matching field of `x` decodes to `x` |
| `IdModel.PayloadToDictFieldsA` | models/id.py:328-331 | `to_dict` writes the code, type and issuer as strings, and the number as a decimal string |
| `IdModel.PayloadToDictFieldsA2` | models/id.py:332-335 | `to_dict` writes `names`, `country`, `nationality` and `dob` as their own `to_dict` |
| `IdModel.PayloadToDictFieldsB` | models/id.py:336-340 | `to_dict` writes `sex`, `expiry`, `personal_number` and `match_document_sides` |
| `IdModel.PayloadToDictFieldsB2` | models/id.py:341-344 | `to_dict` writes `address`, `optionals`, `extra` and `validations`, the lists element by element |
| `IdModel.PayloadRoundTrip` | models/id.py:304-345 | `from_dict(to_dict(x)) == x` for the whole document payload |
| `IdModel.PayloadKeys` | models/id.py:326-345 | `to_dict` writes exactly the sixteen payload keys; `check_digit` is not among them |
| `IdModel.CheckDigitUpdateLeavesFields` | models/id.py:316 | adding a `check_digit` entry changes none of the sixteen keys `from_dict` reads |
| `IdModel.PayloadIgnoresCheckDigit` | models/id.py:316 | whatever an incoming payload holds under `check_digit`, the decoding is the same |
| `IdModel.IDResult.FromDict` | models/id.py:356-361 | a non-object is rejected; `status` is a boolean and `payload` a decoded payload |
| `IdModel.IDResult.ToDict` | models/id.py:363-367 | writes exactly `status` and `payload` |
| `IdModel.IDResultRoundTrip` | models/id.py:356-367 | `from_dict(to_dict(x)) == x` for the INE endpoint's reply |
| `AddressModel.FromNone` | models/address.py:17-19 | `from_none` accepts exactly `None` |
| `AddressModel.FromUnion` | models/address.py:22-28 | succeeds iff some decoder succeeds; the result is that of the first one that does |
| `AddressModel.NoteFromStr` | models/address.py:94 | the `from_str` alternative of the note's union accepts exactly strings |
| `AddressModel.NoteFromJson` | models/address.py:94 | the note is a string or `None`, and anything else is rejected |
| `AddressModel.NoteToJson` | models/address.py:101 | a present note is written as a string, an absent one as `None` |
| `AddressModel.NoteRoundTrip` | models/address.py:94-101 | the optional note round-trips |
| `AddressModel.State.FromDict` | models/address.py:58-66 | a non-object is rejected; `key` must be a decimal string (a JSON integer is rejected) |
| `AddressModel.State.ToDict` | models/address.py:68-76 | writes exactly the six state keys |
| `AddressModel.StateRoundTrip` | models/address.py:58-76 | `from_dict(to_dict(x)) == x` |
| `AddressModel.Verification.FromDict` | models/address.py:90-95 | accepts exactly objects with a string description, a boolean status and a string-or-`None` note |
| `AddressModel.Verification.ToDict` | models/address.py:97-102 | writes exactly `description`, `status` and `note` |
| `AddressModel.VerificationRoundTrip` | models/address.py:90-102 | `from_dict(to_dict(x)) == x` |
| `AddressModel.VerificationsRoundTrip` | models/address.py:195-206 | the `verifications` list round-trips element by element |
| `AddressModel.Zone.FromDict` | models/address.py:138-154 | a non-object is rejected; `zip_code` must be a decimal string |
| `AddressModel.Zone.FromFields` | models/address.py:140-154 | the field-by-field decoding of a zone object |
| `AddressModel.Zone.ToDict` | models/address.py:156-172 | writes a JSON object |
| `AddressModel.ZoneToDictFieldsA` | models/address.py:158-164 | `to_dict` writes the first seven zone fields, the integers as decimal strings |
| `AddressModel.ZoneToDictFieldsB` | models/address.py:165-171 | `to_dict` writes the last seven zone fields, the integers as decimal strings |
| `AddressModel.ZoneKeys` | models/address.py:156-172 | `to_dict` writes exactly the fourteen zone keys |
| `AddressModel.ZoneRoundTrip` | models/address.py:138-172 | `from_dict(to_dict(x)) == x` |
| `AddressModel.Payload.FromDict` | models/address.py:192-200 | succeeds iff the input is an object whose lists decode element by element, whose `zone` and `state` decode, and whose `exact` and `valid` are booleans; the decoded fields are those values |
| `AddressModel.Payload.ToDict` | models/address.py:202-210 | writes exactly the six payload keys |
| `AddressModel.PayloadRoundTrip` | models/address.py:192-210 | `from_dict(to_dict(x)) == x` |
| `AddressModel.AddressParser.FromDict` | models/address.py:222-226 | a non-object is rejected; `status` is a boolean and `payload` a decoded address payload |
| `AddressModel.AddressParser.ToDict` | models/address.py:228-232 | writes exactly `status` and `payload` |
| `AddressModel.AddressParserRoundTrip` | models/address.py:222-232 | `from_dict(to_dict(x)) == x` for the address endpoint's reply |
| `SpoofFaceModel.Payload.FromDict` | models/spoof_face.py:30-35 | accepts exactly objects with an integer (not a boolean) `score` and a boolean `status`, and returns them |
| `SpoofFaceModel.Payload.ToDict` | models/spoof_face.py:37-41 | writes exactly `score` and `status` |
| `SpoofFaceModel.PayloadRoundTrip` | models/spoof_face.py:30-41 | `from_dict(to_dict(x)) == x` |
| `SpoofFaceModel.FaceSpoofing.FromDict` | models/spoof_face.py:52-57 | accepts exactly objects with a boolean `status` and a decodable `payload` |
| `SpoofFaceModel.FaceSpoofing.ToDict` | models/spoof_face.py:59-63 | writes exactly `status` and `payload` |
| `SpoofFaceModel.FaceSpoofingRoundTrip` | models/spoof_face.py:52-63 | `from_dict(to_dict(x)) == x` for the liveness endpoint's reply |
| `Response.StructuredResponse.ToDict` | implementations/response.py:10-20 | `status` and `message` are always written; `data` is written iff it is not `None`; no other key |
| `Response.Error` | implementations/response.py:22-33 | a failed response with the message and no data |
| `Response.Success` | implementations/response.py:35-47 | a successful response with the message and the data given |
| `Response.ErrorToDict` | implementations/response.py:10-33 | an error serialises to exactly `{"status": false, "message": m}` |
| `Response.SuccessToDictWithoutData` | implementations/response.py:10-47 | a success without data serialises without a `data` key |
| `EngineUtils.GetTypeName` | engine/utils.py:10-16 | a generic type is named by its lower-cased origin, with `list` renamed `array`; any other type by its lower-cased name or, without one, its lower-cased representation |
| `EngineUtils.TypeNameIsLowerCase` | engine/utils.py:10-16 | every type name produced is already lower case |
| `EngineUtils.DocStep` | engine/utils.py:29-41 | one docstring line keeps the parser state well formed: the current parameter always has an entry |
| `EngineUtils.DocRun` | engine/utils.py:26-41 | the line loop keeps the parser state well formed |
| `EngineUtils.ParseDocstringSpec` | engine/utils.py:18-43 | a missing or empty docstring gives an empty description and no parameter descriptions |
| `EngineUtils.ParseDocstring` | engine/utils.py:18-43 | the imperative line loop computes exactly the specified description and parameter map |
| `EngineUtils.StripAll` | engine/utils.py:29-30 | every line is stripped and no line is lost |
| `EngineUtils.DescriptionStep` | engine/utils.py:33-34 | in description mode a non-header line is appended, stripped, to the description and nothing else changes |
| `EngineUtils.StripAllSnoc` | engine/utils.py:29-30 | stripping a list extended by one line extends the stripped list by that line stripped |
| `EngineUtils.DescriptionWithoutHeader` | engine/utils.py:29-34 | a docstring without an `Args:` or `Parameters:` header is all description: every line stripped, no parameter |
| `EngineUtils.ParamsModeIsKept` | engine/utils.py:31-41 | once a header is seen the parser never leaves parameter mode and the description never grows again |
| `EngineUtils.DescriptionEndsAtFirstHeader` | engine/utils.py:29-41 | the description is exactly the stripped lines before the first header, whatever follows it |
| `EngineUtils.ParamLineSetsEntry` | engine/utils.py:36-39 | in parameter mode a line with a colon is split at the first colon; the stripped name becomes current and maps to the stripped rest |
| `EngineUtils.ContinuationAppends` | engine/utils.py:40-41 | a non-empty colon-less line is appended, after a space, to the current parameter's description |
| `EngineUtils.ContinuationDroppedWithoutParam` | engine/utils.py:40-41 | with no current parameter a colon-less line changes nothing |
| `EngineUtils.ParamInfo` | engine/utils.py:64-75 | a parameter's entry has its type name and docstring description (empty if none); an enum is typed `string` and lists its values; `default` is present iff the parameter has a non-enum default |
| `EngineUtils.ParamNames` | engine/utils.py:63-77 | the properties are keyed by exactly the signature's parameter names |
| `EngineUtils.PropertiesExtend` | engine/utils.py:63-77 | one loop iteration keeps the invariant: every parameter seen so far has its own entry and no other key exists |
| `EngineUtils.BuildProperties` | engine/utils.py:63-77 | the loop builds a properties object holding exactly one entry per parameter |
| `EngineUtils.RequiredJson` | engine/utils.py:60-61 | the required list is written in order, one string per name |
| `EngineUtils.ParametersJsonFor` | engine/utils.py:54-61 | the parameters object has type `object`, the properties, and `required` iff a required list was given |
| `EngineUtils.SerializeFunctionToJson` | engine/utils.py:45-79 | the schema carries the function's name, the docstring's description, and parameters built from the signature and the docstring's parameter descriptions |
| `EngineUtils.DecodeFragment` | engine/utils.py:93-113 | a tag without text is an error; `json.loads` wins when it succeeds; a decoded value came from `json.loads` or from the `ast.literal_eval` fallback |
| `EngineUtils.ExtractRun` | engine/utils.py:92-117 | the validation flag is true iff at least one tool call was decoded |
| `EngineUtils.ExtractStep` | engine/utils.py:104-117 | a decoded non-`None` value is appended to the calls and sets the flag; a decoded `None` changes nothing; a failed tag records its error and keeps the calls |
| `EngineUtils.DecodeAll` | engine/utils.py:92-113 | each tag's text is decoded on its own, in document order |
| `EngineUtils.ExtractToolCalls` | engine/utils.py:81-124 | malformed XML gives no calls, a false flag and the parse error; otherwise the flag is true iff a call was kept |
| `EngineUtils.ValidateAndExtractToolCalls` | engine/utils.py:81-124 | the imperative extraction returns exactly the specified triple |
| `EngineUtils.ExtractRunKeeps` | engine/utils.py:92-117 | the calls kept are exactly the decoded fragments, in order |
| `EngineUtils.Kept` | engine/utils.py:115-116 | the kept calls are no more than the fragments and none of them is `None` |
| `EngineUtils.FailedFragmentIsSkipped` | engine/utils.py:104-110 | a tag that fails to decode is skipped: the calls are those of the other tags |
| `EngineUtils.OpenAt` | engine/utils.py:137 | an opening fence is three backquotes and `json` followed by an optional carriage return and a newline |
| `EngineUtils.CloseFrom` | engine/utils.py:137-138 | the non-greedy match ends at the first closing fence after the body start |
| `EngineUtils.SearchFindsFirstBlock` | engine/utils.py:137-138 | the search finds the body of the block at the leftmost position that starts one, and finds nothing iff no position does |
| `EngineUtils.ExtractJsonFromMarkdown` | engine/utils.py:127-148 | no fenced block gives `None`; a block whose body `json.loads` accepts gives the parsed value; a block whose body fails to parse gives `None` |
| `EngineUtils.NoFenceNoBlock` | engine/utils.py:137-147 | a text with no opening fence has no match |
| `EngineUtils.SingleBlock` | engine/utils.py:137-148 | a text that is one fenced block yields its body, parsed or `None` |
| `ModelCalling.WithName` | engine/model_calling.py:57-58 | every function kept has the step's name and comes from the input; every function with the name is kept; no longer than the input |
| `ModelCalling.WithNameConcat` | engine/model_calling.py:57-58 | filtering a concatenation is concatenating the filtered parts, so the filter keeps the input's order |
| `ModelCalling.WithNameCounts` | engine/model_calling.py:57-58 | a function with the name occurs as often in the result as in the input, any other not at all |
| `ModelCalling.OfferedTools` | engine/model_calling.py:57-59 | the offered list is the filtered functions followed by the generic call |
| `ModelCalling.OfferedToolsAreTheStepsOwn` | engine/model_calling.py:57-59 | a function is offered iff it is the generic call or a function to apply that has the step's name |
| `ModelCalling.ExecuteSpec` | engine/model_calling.py:38-54 | a call whose name is not a function to apply raises and changes nothing; a completed call leaves no report stored and appends one invocation |
| `ModelCalling.ExecutedCall` | engine/model_calling.py:38-54 | a completed call was named, found among the client functions, given an object of arguments, invoked with its `value` and the report, and answered with its name and the function's result |
| `ModelCalling.FailedToolKeepsReport` | engine/model_calling.py:47-53 | when the invoked function raises, the report stored before the call is left in the store |
| `ModelCalling.GenericCount` | engine/model_calling.py:78-81 | counts the calls named `generic_response`: zero iff none is, all iff every one is |
| `ModelCalling.DispatchStep` | engine/model_calling.py:85-98 | one call of the loop: after a return nothing changes; a valid call adds at most one response after the earlier ones; an invalid call returns `None` iff some call is generic and is skipped otherwise; an exception comes only from a valid call |
| `ModelCalling.DispatchRunBounded` | engine/model_calling.py:84-100 | no calls give an empty list and no effects; a loop that runs to the end has at most one response per call |
| `ModelCalling.DispatchCalls` | engine/model_calling.py:77-100 | a call without a name raises; a reply whose calls are all generic (none included) returns nothing and changes nothing |
| `ModelCalling.ProcessInputToolSpec` | engine/model_calling.py:56-100 | on the calls extracted from the model's reply: an unnamed call raises, only generic calls give the fallback, and at most one response per call is returned |
| `ModelCalling.StoppedStaysStopped` | engine/model_calling.py:84-98 | once the loop has returned, later calls change nothing |
| `ModelCalling.StopsAt` | engine/model_calling.py:84-98 | the loop's result is fixed by the prefix up to the call at which it returned |
| `ModelCalling.GoingResponses` | engine/model_calling.py:84-100 | a loop that runs to the end responds once per valid call, in order |
| `ModelCalling.ValidResponses` | engine/model_calling.py:85-93 | the responses are at most one per call, and one per call when every call is valid |
| `ModelCalling.ResponsesFollowValidCalls` | engine/model_calling.py:77-100 | when a list of responses is returned, it holds exactly one response per call that passed schema validation, in order |
| `ModelCalling.InvalidWithGenericFallsBack` | engine/model_calling.py:94-98 | an invalid call in a reply that also contains a generic call makes the whole call return nothing, keeping only the work done before it |
| `ModelCalling.InvalidWithoutGenericSkipped` | engine/model_calling.py:94-98 | without a generic call, an invalid call is skipped |
| `ModelCalling.ToolCaller.constructor` | engine/model_calling.py:31-36 | holds the configuration, with no report stored and no invocation yet |
| `ModelCalling.ToolCaller.ExecuteFunctionCall` | engine/model_calling.py:38-54 | the method's response and new state are those of the specification; it returns a response iff the call completed |
| `ModelCalling.ToolCaller.ProcessInputTool` | engine/model_calling.py:56-100 | the method's outcome and new state are those of the specification |
| `ModelCalling.ToolCaller.DispatchBatch` | engine/model_calling.py:84-100 | the imperative loop over the calls computes the specified dispatch outcome and state |
| `Mongo.FirstWith` | database/mongo.py:57 | finds the first step with the function name, as a positional `$` update does, or reports there is none |
| `Mongo.FirstIncompleteFrom` | database/mongo.py:102-104 | finds the first incomplete step from a position, or reports every later step is complete |
| `Mongo.ActiveStep` | database/mongo.py:99-112 | there is an active step iff some step is incomplete, and it is the first incomplete one |
| `Mongo.ClientStep` | database/mongo.py:99-112 | an unknown client has no active step; a known one has the first incomplete step of its list |
| `Mongo.MarkClient` | database/mongo.py:55-59 | no record is added or removed and no other client changes; without a step with the name nothing changes; the report and pending steps are kept and the number of steps is unchanged |
| `Mongo.PushClient` | database/mongo.py:67-71 | no record is added or removed and no other client changes; without a step with the name nothing changes; the report and pending steps are kept and the number of steps is unchanged |
| `Mongo.ResetClient` | database/mongo.py:79-83 | no record is added or removed and no other client changes; without a step with the name nothing changes; the report and pending steps are kept and the number of steps is unchanged |
| `Mongo.PromoteClient` | database/mongo.py:32-52 | pending steps, when present, become the steps and are removed with the report kept; otherwise, or for an unknown client, nothing changes; no other client changes |
| `Mongo.MarkCompleteTargetsFirst` | database/mongo.py:55-59 | marking completes the first step with the name and leaves every other step alone; without such a step nothing changes |
| `Mongo.MarkCompleteIdempotent` | database/mongo.py:55-64 | marking twice is marking once, and the second update modifies nothing |
| `Mongo.CompletingActiveAdvances` | database/mongo.py:55-112 | completing the active step makes the next incomplete step after it active |
| `Mongo.SameNamesSameFirst` | database/mongo.py:57 | the step an update targets depends only on the function names |
| `Mongo.IncompleteFromAgrees` | database/mongo.py:102-104 | the active step depends only on the completion flags |
| `Mongo.FirstIncompleteSkips` | database/mongo.py:102-104 | complete steps are skipped by the search |
| `Mongo.PushImageAppends` | database/mongo.py:67-71 | an upload appends the URL to the first step with the name and changes no other step and no completion flag |
| `Mongo.ResetImagesTargetsFirst` | database/mongo.py:79-83 | a reset empties the images of the first step with the name and leaves every other step alone; without such a step nothing changes |
| `Mongo.PushThenResetEmpties` | database/mongo.py:67-83 | a reset after an upload gives the same steps as the reset alone, and the targeted step has no images |
| `Mongo.ImagesKeepActiveStep` | database/mongo.py:67-112 | adding or resetting images never changes which step is active |
| `Mongo.ResetClientIdempotent` | database/mongo.py:79-83 | resetting a step's images twice is resetting once |
| `Mongo.PushKeepsActiveStep` | database/mongo.py:67-112 | after an upload to the active step it is still the active step, with the same image requirement |
| `Mongo.ClientStore.constructor` | database/mongo.py:7-11 | the collection starts empty |
| `Mongo.ClientStore.ClientExist` | database/mongo.py:14-16 | returns the client's record iff it exists |
| `Mongo.ClientStore.CreateClient` | database/mongo.py:115-128 | a new client gets no steps, the report and no pending steps, and the record is returned |
| `Mongo.ClientStore.SetStepsToClientTemporal` | database/mongo.py:19-29 | a known client's pending steps are set; the update counts as modified iff they differed; an unknown client changes nothing |
| `Mongo.ClientStore.SetStepsToClient` | database/mongo.py:32-52 | an unknown client raises; pending steps, when present, replace the steps and are removed; otherwise nothing changes |
| `Mongo.ClientStore.MarkStepAsComplete` | database/mongo.py:55-64 | the new collection is the specified marking, modified iff the targeted step was not already complete |
| `Mongo.ClientStore.AddImageToStep` | database/mongo.py:67-76 | the new collection is the specified upload, modified iff the client has a step with the name |
| `Mongo.ClientStore.ResetImagesToStep` | database/mongo.py:79-88 | the new collection is the specified reset, modified iff the targeted step had images |
| `Mongo.ClientStore.RemoveItem` | database/mongo.py:91-96 | the client is gone, every other client is kept, and a deletion is reported iff it existed |
| `Mongo.ClientStore.GetStepByClient` | database/mongo.py:99-112 | returns the client's first incomplete step, or nothing for an unknown client or a finished journey |
| `Nebuia.CheckNumberValid` | implementations/nebuia_functions.py:294-311 | a number is valid iff it is numeric and exactly eight characters long |
| `Nebuia.CheckAmountToRequest` | implementations/nebuia_functions.py:239-254 | a non-numeric amount is refused; a numeric one is accepted iff its value is at most 20000 |
| `Nebuia.AmountLimit` | implementations/nebuia_functions.py:249-253 | the limit is inclusive: 20000 is accepted and 20001 refused |
| `Nebuia.SearchSixDigits` | implementations/nebuia_functions.py:232 | finds the leftmost run of six digits from a position, or reports there is none |
| `Nebuia.SearchFindsRun` | implementations/nebuia_functions.py:232 | the search succeeds iff the text contains six consecutive digits anywhere |
| `Nebuia.OtpGate` | implementations/nebuia_functions.py:232-234 | a code is passed on, unchanged, iff it contains six consecutive digits |
| `Nebuia.CheckOtpValid` | implementations/nebuia_functions.py:221-234 | a code without six consecutive digits is refused without asking the API; otherwise the API's verdict is returned |
| `Nebuia.OtpSearchIsUnanchored` | implementations/nebuia_functions.py:232 | the pattern is not anchored: surrounding text is accepted and sent as the code |
| `Nebuia.GenericResponse` | implementations/nebuia_functions.py:259-269 | always the fixed generic reply |
| `Nebuia.CheckNameValid` | implementations/nebuia_functions.py:274-289 | every name is accepted |
| `Nebuia.CheckFileContent` | implementations/nebuia_functions.py:397-401 | a content type passes iff the step accepts it |
| `Nebuia.GetMediaTools` | implementations/nebuia_functions.py:407-412 | exactly three media tools: the address, face and INE checks under their step names |
| `Nebuia.Ascii` | implementations/nebuia_functions.py:75-81 | UTF-8 encoding keeps length and character codes on ASCII text |
| `Nebuia.PartHeaders` | implementations/nebuia_functions.py:76-78 | a part's headers start with the form-data disposition naming the part and end with the blank line that separates them from the content |
| `Nebuia.MultipartBody` | implementations/nebuia_functions.py:146-156 | the body opens with the delimiter and the first part's headers, then holds the first part's bytes, and ends with the closing delimiter |
| `Nebuia.MultipartRest` | implementations/nebuia_functions.py:151-156 | the body after the first part always ends with the closing delimiter |
| `Nebuia.SinglePartBody` | implementations/nebuia_functions.py:75-81 | the one-file body is the opening text, then exactly the file's bytes, then the closing delimiter, and nothing else |
| `Nebuia.SinglePartIsMultipart` | implementations/nebuia_functions.py:75-81 | the one-file body is the multipart body of that single part |
| `Nebuia.IneBodyIsMultipart` | implementations/nebuia_functions.py:146-156 | the INE body is the multipart body of the front and back parts, in that order |
| `Nebuia.IneBodyLayout` | implementations/nebuia_functions.py:146-156 | the INE body opens with the delimiter, holds the front and back bytes at their offsets, and ends with the closing delimiter |
| `Nebuia.MultipartHeaders` | implementations/nebuia_functions.py:83-84 | the content type names the boundary, a content length is added, and every other header is kept |
| `Nebuia.ContentLengthIsBodyLength` | implementations/nebuia_functions.py:84 | the content length, read back as an integer, is the body's length in bytes |
| `Nebuia.AddressReplyOf` | implementations/nebuia_functions.py:134-137 | a reply with a false status gives no address; a true status gives the decoded address; anything else raises |
| `Nebuia.IneReplyOf` | implementations/nebuia_functions.py:165-166 | a reply gives an ID result iff it decodes as one |
| `Nebuia.SpoofReplyOf` | implementations/nebuia_functions.py:112-113 | a reply gives a liveness result iff it decodes as one |
| `Nebuia.NebuIAAPI.constructor` | implementations/nebuia_functions.py:26-34 | the headers hold the API key, the secret and a JSON content type |
| `Nebuia.NebuIAAPI.PostMultipart` | implementations/nebuia_functions.py:83-88 | the headers are updated for the body before the request is made with them |
| `Nebuia.NebuIAAPI.CheckFaceQuality` | implementations/nebuia_functions.py:71-91 | the headers become the multipart headers of the one-part face body, and the reply is the quality verdict of the quality endpoint's answer to that body |
| `Nebuia.NebuIAAPI.CheckFaceSpoofing` | implementations/nebuia_functions.py:93-113 | the headers become the multipart headers of the one-part face body, and the reply is the decoded liveness answer to that body |
| `Nebuia.NebuIAAPI.CheckAddressDocument` | implementations/nebuia_functions.py:115-137 | the headers become the multipart headers of the one-part PDF body, and the reply is the address endpoint's answer to that body, decoded only for a true status |
| `Nebuia.NebuIAAPI.CheckIneImage` | implementations/nebuia_functions.py:139-166 | with both sides the headers become those of the two-part body and the reply is the ID endpoint's decoded answer; with a side missing the body is unbound, the call raises and the headers are untouched |
| `Nebuia.FirstFile` | implementations/nebuia_functions.py:315 | the first image is downloaded; a step without images raises |
| `Nebuia.IneGateOf` | implementations/nebuia_functions.py:370-383 | one image asks for the back side; none raises; two downloaded images are refused unless both content types are accepted, and otherwise are sent to the API |
| `Nebuia.OneImageFetchesNothing` | implementations/nebuia_functions.py:371-373 | with one image the answer does not depend on any download |
| `Nebuia.AddressSummary` | implementations/nebuia_functions.py:328-331 | the success message starts with the fixed lead-in and the first address line and ends with the township |
| `Nebuia.SpoofVerdict` | implementations/nebuia_functions.py:340-344 | the liveness verdict gives the success message iff the reply is live; no reply raises with nothing changed; a failed one gives the error message and resets the face step |
| `Nebuia.SpoofOutcome` | implementations/nebuia_functions.py:337-344 | an unknown client raises with nothing changed; the headers are those of the face body; success iff the liveness answer is live; a failure resets the face step and a success changes nothing |
| `Nebuia.QualityVerdict` | implementations/nebuia_functions.py:356-367 | a failed quality reply gives the error message with nothing reset; a low quality gives the low-quality message and resets the face step; a good one runs the liveness check and then resets the face step; success iff quality status, threshold and liveness all hold |
| `Nebuia.QualityOutcome` | implementations/nebuia_functions.py:347-367 | a failed download raises; a refused content type gets the not-an-image message with nothing changed; an unknown client raises; a success is the liveness success message; only the face step can be reset |
| `Nebuia.QualityVerdicts` | implementations/nebuia_functions.py:347-367 | for an accepted file and a known client, the tool's outcome is the quality verdict on the quality endpoint's answer and the liveness endpoint's answer, posted in that order |
| `Nebuia.AddressVerdict` | implementations/nebuia_functions.py:324-334 | an exception in the reply raises with nothing changed; no address or a false status gives the failure message and resets the address step; a true status gives the summary message and resets the address step; success iff the address has a status and a first line |
| `Nebuia.AddressOutcome` | implementations/nebuia_functions.py:314-334 | a failed download raises; a refused content type gets the PDF message with nothing changed; an unknown client raises; only the address step can be reset |
| `Nebuia.AddressVerdicts` | implementations/nebuia_functions.py:314-334 | for an accepted file and a known client, the tool's outcome is the address verdict on the endpoint's answer to the PDF body |
| `Nebuia.IneOutcome` | implementations/nebuia_functions.py:370-395 | one image asks for the back side with nothing changed; no image or a failed download raises; refused types reset the given target; an ID answer with a true status gives the summary message and changes nothing, a false one the retry message and resets the INE step, and none raises; success iff the ID answer has a true status |
| `Nebuia.MediaToolOutcome` | implementations/nebuia_functions.py:407-412 | the tool under each step name runs its own outcome; the INE tool on one image asks for the back side and changes nothing |
| `Nebuia.MediaToolKeepsOthers` | implementations/nebuia_functions.py:314-395 | no media tool adds or removes a record, touches another client or changes the client's report |
| `Nebuia.NebuiaFunctions.constructor` | implementations/nebuia_functions.py:175-177 | holds the database and the download session |
| `Nebuia.NebuiaFunctions.ProcessIneResetting` | implementations/nebuia_functions.py:370-395 | the method's reply, database and headers are exactly those of `IneOutcome` for the given reset target |
| `Nebuia.NebuiaFunctions.RequestIne` | implementations/nebuia_functions.py:384-385 | the reply is the decoded answer of the ID endpoint to the two-part body, and the headers are updated for that body; an empty side sends nothing |
| `Nebuia.NebuiaFunctions.CheckAddressDocument` | implementations/nebuia_functions.py:314-334 | the method's reply, database and headers are exactly those of `AddressOutcome` |
| `Nebuia.NebuiaFunctions.RequestAddress` | implementations/nebuia_functions.py:321-322 | the reply is the address endpoint's answer to the PDF body, and the headers are updated for that body |
| `Nebuia.NebuiaFunctions.CheckFaceSpoofing` | implementations/nebuia_functions.py:337-344 | the method's reply, database and headers are exactly those of `SpoofOutcome` |
| `Nebuia.NebuiaFunctions.CheckFaceQuality` | implementations/nebuia_functions.py:347-367 | the method's reply, database and headers are exactly those of `QualityOutcome` |
| `Nebuia.NebuiaFunctions.RunMediaTool` | implementations/nebuia_functions.py:407-412 | the registered tool's reply, database and headers are exactly those of `MediaToolOutcome` for that tool |
| `Nebuia.NebuiaFunctions.ProcessIneAsWritten` | implementations/nebuia_functions.py:370-395 | as written: the outcome is `IneOutcome` with the face step as the content-type reset target, so a rejected pair resets `check_face_valid` |
| `Nebuia.NebuiaFunctions.ProcessIne` | implementations/nebuia_functions.py:370-395 | the corrected tool: the outcome is `IneOutcome` with the INE step as the content-type reset target |
| `Nebuia.FaceResetKeepsIneImages` | implementations/nebuia_functions.py:381 | after the as-written reset the INE step keeps its old images, so a new upload is appended after them |
| `Nebuia.FaceResetCounterexample` | implementations/nebuia_functions.py:381 | a concrete INE step with two rejected files is left unchanged by the as-written reset |
| `Nebuia.IneResetClearsIneImages` | implementations/nebuia_functions.py:394 | after resetting the INE step a new upload is its only image |
| `TextHandler.OnlyFirstResponseConsulted` | handler/text_handler.py:81-88 | only the first tool response's content is read; later responses never matter |
| `TextHandler.ExtractResponseContent` | handler/text_handler.py:81-88 | no responses give no content; a content is always the first response's |
| `TextHandler.SuccessEffects` | handler/text_handler.py:112-131 | a success sends one message, then advances iff it completes the step; the message is sent verbatim unless the model is asked to phrase it, from the user's text when the data is truthy and from the message otherwise |
| `TextHandler.ReplyEffects` | handler/text_handler.py:42-140 | the caller's exception propagates; otherwise exactly one message is sent, followed by an advance iff the outcome succeeded and completes the step; no outcome gets the step's instruction; a failure is sent verbatim; a success is phrased by the model only when it asks, from the user's text when its data is truthy |
| `TextHandler.TextInputHandler.constructor` | handler/text_handler.py:11-25 | holds the tool caller |
| `TextHandler.TextInputHandler.HandleTextInput` | handler/text_handler.py:27-54 | an image step gets its instruction again without calling the model; an unknown client raises; otherwise the effects are those of the tool caller's specified outcome |
| `GenericHandler.UnknownFunction` | handler/generic_handler.py:45-46 | an unknown function gives a failed response that names it |
| `GenericHandler.ResultEffects` | handler/generic_handler.py:48-51 | the result's message is sent, then the journey advances iff the result succeeded |
| `GenericHandler.MediaEffects` | handler/generic_handler.py:48-51 | a raising tool sends nothing; otherwise its message is sent first, and the journey advances iff it succeeded |
| `GenericHandler.GenericMediaHandler.constructor` | handler/generic_handler.py:12-17 | the function map starts empty |
| `GenericHandler.GenericMediaHandler.AddFunction` | handler/generic_handler.py:19-29 | the name maps to the function and every other entry is kept |
| `GenericHandler.GenericMediaHandler.HandleFunction` | handler/generic_handler.py:31-52 | an unknown name returns the failure without sending anything or touching the database; for a registered name the reply, database and headers are the tool's `MediaToolOutcome`, its message is sent and the journey advances iff it succeeded; the INE tool on one image asks for the back side |
| `GenericHandler.GenericMediaHandler.GenerateMediaResponse` | handler/generic_handler.py:54-71 | a step without a function name gets the fixed notice and nothing else; an unregistered name gets only the waiting notice; a registered tool sends the waiting notice then its reply, raises iff the tool raised, and leaves the database and headers as `MediaToolOutcome` says |
| `Controller.Describe` | controllers/default_controller.py:109-115 | an empty input asks for the step's plain instruction; any other asks for one that explains the input and the data |
| `Controller.NextMessage` | controllers/default_controller.py:81-86 | a finished journey gets the closing message; otherwise the new active step's instruction |
| `Controller.RunEffect` | controllers/default_controller.py:65-86 | each effect sends exactly one message to the client after those already sent; a plain message is sent as given; only an advance changes the database, by marking the step complete and announcing the next step |
| `Controller.RunEffectsConcat` | controllers/default_controller.py:65-86 | performing two lists of effects in a row is performing their concatenation |
| `Controller.RunEffectsTrace` | controllers/default_controller.py:65-86 | performing effects sends one message per effect, in order, after the messages already sent; a plain message is sent as given |
| `Controller.MessagesKeepClients` | controllers/default_controller.py:65-73 | effects without an advance never change the database |
| `Controller.AdvanceAnnouncesFollowingStep` | controllers/default_controller.py:75-86 | completing the active step announces the next incomplete step after it, or the closing message when there is none |
| `Controller.ListedToolsAreListedAndPresent` | controllers/default_controller.py:46-51 | the listed registration keeps exactly the names that are listed and known, with their own tools |
| `Controller.Registered` | controllers/default_controller.py:35-54 | with no names or an empty list every media tool is registered; with names, exactly the listed known ones; never a tool under another name |
| `Controller.RegisterOneMore` | controllers/default_controller.py:53-54 | registering one more tool extends the map by that tool |
| `Controller.RegisteredAll` | controllers/default_controller.py:52-54 | registering every name gives back the whole tool map |
| `Controller.Controller.constructor` | controllers/default_controller.py:14-33 | nothing has been sent, and the media handler holds every media tool |
| `Controller.Controller.InitializeMediaHandler` | controllers/default_controller.py:35-54 | a fresh media handler registers the tools the name list selects, and nothing is sent |
| `Controller.Controller.RegisterListed` | controllers/default_controller.py:46-51 | the loop over the names registers exactly the listed known tools |
| `Controller.Controller.RegisterAll` | controllers/default_controller.py:52-54 | the loop over the tool map registers every tool |
| `Controller.Controller.Message` | controllers/default_controller.py:65-73 | one message to the client is appended to what was sent |
| `Controller.Controller.GetReportByClient` | controllers/default_controller.py:103-107 | the client's report, or an exception for an unknown client |
| `Controller.Controller.NextStep` | controllers/default_controller.py:75-86 | the step is marked complete, then the message for the new active step is sent |
| `Controller.Controller.PerformEffects` | controllers/default_controller.py:27-33 | the callbacks the handlers are given perform the effects exactly as specified |
| `Controller.Controller.HandleTextInput` | controllers/default_controller.py:124-128 | an image step gets its instruction again; an unknown client raises with nothing changed; otherwise the tool caller runs and its specified effects are performed, unless it raises |
| `Controller.Controller.ProcessMedia` | controllers/default_controller.py:130-137 | the upload's URL is appended to the step's images |
| `Controller.Controller.HandleMediaUpload` | controllers/default_controller.py:139-147 | a step without images gets the no-media notice; an unknown client raises; otherwise the active step is read again: no function gets the fixed notice; a registered tool's outcome is applied and the final database and trace are those of performing the waiting notice followed by the tool's reply |
| `Controller.Controller.InitFirstContact` | controllers/default_controller.py:95-101 | the greeting and then the instruction are sent |
| `Controller.Controller.HandleButtonMessage` | controllers/default_controller.py:149-159 | the pending steps are promoted; then the greeting and the first step's instruction are sent, or the call raises when there is no active step |
| `Controller.Controller.HandleEmptySteps` | controllers/default_controller.py:161-168 | the generic conversation reply is sent |
| `WhatsAppBot.ContactId` | main.py:135 | the contact id is the client id behind the prefix `521` |
| `WhatsAppBot.NumMedia` | main.py:107-108 | a missing media count is zero; a present one is parsed as an integer, failing on a malformed one |
| `WhatsAppBot.RouteOf` | main.py:98-115 | a button goes first; an unknown client raises; no steps gets the generic conversation; a bad count or no active step raises; media goes to the media path iff the count is positive and the step wants images, everything else to the text path |
| `WhatsAppBot.MissingCountIsText` | main.py:107-115 | a message without a media count goes to the text path |
| `WhatsAppBot.WhatsAppBot.constructor` | main.py:30-38 | holds the database, the controller and the welcome text |
| `WhatsAppBot.WhatsAppBot.ReplyWhatsapp` | main.py:87-117 | the route is the specified one; raising paths change nothing; a button promotes the pending steps, raises iff the client then has no step, and otherwise sends the greeting and the description of the first step; the text path runs the tool caller's specification and performs its reply effects, raising iff the caller raised; the media path first appends the URL to the active step and then runs the step's tool on the updated step, ending in the state performing its effects gives |
| `WhatsAppBot.WhatsAppBot.ReplyMedia` | main.py:111-113 | the URL is appended to the active step before the media handler runs; the handler then sees the updated step: no function gets the fixed notice, an unregistered one only the waiting notice, and a registered tool's outcome is applied and its effects performed |
| `WhatsAppBot.WhatsAppBot.ReplyText` | main.py:114-115 | an image step gets its instruction again; otherwise the tool caller's specification decides the outcome, the call raises iff the caller raised, and the reply effects are performed |
| `WhatsAppBot.WhatsAppBot.InitContact` | main.py:139-161 | a new contact gets a record with the report and pending steps, a known one is left alone, and both get the welcome and the additional-information message |
| `WhatsAppBot.WhatsAppBot.RemoveContact` | main.py:133-137 | the contact is removed and nothing else changes |

## Left out

- The network and the services behind it are parameters that the model does not define. This covers the LLM (`Engine.call_llm`), the Twilio client, Redis, MongoDB's wire protocol, the NebuIA HTTP connection and the media download through `requests.Session`.
- `xml.etree.ElementTree.fromstring`, `json.loads`, `ast.literal_eval` and `validate_function_call_schema` are oracles. The model fixes only how their results are used. `ast.literal_eval` can yield Python values that JSON cannot express; such values are not modelled.
- `inspect.signature`, `get_type_hints`, `Enum` introspection and `func.__doc__` are inputs: a function is given as its name, docstring and parameter list. `inspect.cleandoc` is not modelled, so its tab expansion and common-indent removal are missing; the docstring's lines are taken as they come.
- `NebuIAAPI.get_report`, `save_email`, `send_otp` and `verify_otp` are not modelled beyond the verdict function `verify` that `Nebuia.CheckOtpValid` receives. They are plain HTTP round trips.
- `NebuiaFunctions.resend_otp` and `check_email_valid` are not modelled. The first is only a `send_otp` call. The second depends on a character-class regular expression and on the two HTTP calls above.
- `NebuiaFunctions.get_openai_tools` is not modelled: the tool list the schema validator sees is the `tools` field of `ModelCalling.CallerConfig`.
- `NebuiaFunctions.get_to_client` is `ClientStore.ClientExist` and has no member of its own.
- Nebuia.NebuIAAPI.CheckFaceQuality: the float `quality.payload` and its comparison with 68 are read through the `qualityOf` oracle. `FaceQuality.aboveThreshold` stands for `payload > 68`. models/quality_face.py is not part of this model.
- Nebuia.NebuiaFunctions.RunMediaTool: the media tool registered under `check_ine_valid` is the corrected `ProcessIne`, so on a rejected content type the bot model resets the INE step's images where implementations/nebuia_functions.py:381 resets the face step's. The code as written is `Nebuia.NebuiaFunctions.ProcessIneAsWritten`, and the difference is the finding below.
- Json: there is no floating-point number. A reply or tool argument holding a fraction, such as a liveness `score` of 0.5 (which models/spoof_face.py's `from_int` rejects), cannot be represented, so such replies are outside the model.
- Nebuia.CheckAmountToRequest: `float(value)` is modelled as the exact decimal value of the digits. A binary float rounds large values (`float("9007199254740993")` is `9007199254740992.0`), but rounding to the nearest float is monotone and every integer up to 2^53, 20000 among them, is held exactly, so for the digit strings the model accepts the comparison with 20000 gives the same answer as on the exact value.
- Nebuia.IsNumeric: `str.isnumeric()` is modelled as a non-empty run of ASCII digits. Other Unicode numerics, such as superscripts or CJK numerals, are not modelled.
- PyText.ParseInt: Python's `int()` is modelled on ASCII digits with an optional sign, surrounding whitespace and single underscores between digits. Non-ASCII decimal digits are not accepted.
- PyText.Lower: only ASCII letters are lower-cased. Other Unicode case mappings are not modelled.
- Nebuia.Ascii: bodies are encoded one byte per character, which is UTF-8 only for ASCII text. The boundary, the part headers and the file names are all ASCII.
- Nebuia.NebuiaFunctions: the INE success text (the `ineSummary` field) is given, not modelled. It interpolates the names, elector key, CURP and document number (nebuia_functions.py:387-391), and `{result.payload.names}` formats a `Names` object, which defines no `__str__` (models/id.py:196-219), so the message shows Python's default object representation with a memory address, which the model has no counterpart for. The address success text is modelled by `Nebuia.AddressSummary`, whose missing first address line raises.
- Mongo.ClientStore: the collection is a map from WhatsApp id to one record. `insert_one` does not deduplicate, so the source could hold several documents with the same `w_id`. The model's `CreateClient` keeps the existing record instead; `init_contact` only creates a client that does not exist, so this makes no difference on that path.
- Mongo.ClientStore: pymongo's `modified_count` is modelled as "the document changed". The model does not capture write concerns or failed acknowledgements (`acknowledged` is always true).
- Mongo.Step: a step is a typed record. In the source it is a free-form dictionary, and a missing key there would raise `KeyError`.
- Controller.Controller.ProcessMedia: `request.form.get('MediaUrl0')` is always present. If it were missing, the source would push `None` as an image.
- Controller.Controller.Message: the sender number taken from the client configuration and the `whatsapp:+` prefixes are not part of the trace; a message is recorded as its recipient and body.
- WhatsAppBot.WhatsAppBot: `get_controller` builds a new controller on every request from `config.py` and dynamic imports. The model keeps one configured controller, and the welcome text `format_welcome_message` produces is a constructor argument. config.py is not part of this model.
- main.py builds `ToolCaller(client_functions=...)` without the `functions_to_apply` argument that engine/model_calling.py:31 requires, so the source as written would raise at that call on every request. The model's `ModelCalling.CallerConfig` is given its functions to apply.
- handler/generic_handler.py:48-50 and handler/text_handler.py:51-130 read `result.message`, `response.status` and similar attributes, but the NebuIA tools return plain dictionaries and booleans. The model reads a tool's result as a `StructuredResponse` or `ToolOutcome` record, the shape the handlers are written for, and does not model the `AttributeError` that a dictionary would raise.
- Dictionary key order is not modelled: JSON objects are maps.
- Logging, `print`, Flask routing, CORS, `/status` and `/notification/signed` (which ignore their input and always answer `{"status": true, "payload": true}`), and `asyncio` scheduling are left out. Messages are handled one at a time, so races between concurrent messages from one client are not modelled.

## Findings

| source | as written | input that shows it | evidently intended | confidence | as-written member | corrected member |
|---|---|---|---|---|---|---|
| implementations/nebuia_functions.py:381 | when either INE image has a content type the step does not accept, `process_ine` resets the images of `check_face_valid` | an INE step holding two uploads whose content type is `application/pdf`, with `accept` listing only `image/jpeg`: the step is left holding both rejected files, so the client's next upload becomes a third image and `process_ine` keeps sending the first two | reset the images of `check_ine_valid`, as the API-failure branch at line 394 does, so the client starts again from the front side | not executed | `Nebuia.NebuiaFunctions.ProcessIneAsWritten`, with `Nebuia.FaceResetKeepsIneImages` and `Nebuia.FaceResetCounterexample` | `Nebuia.NebuiaFunctions.ProcessIne`, with `Nebuia.IneResetClearsIneImages` |
