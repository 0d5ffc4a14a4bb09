/**
 * engine/utils.py: the type-name mapping and docstring parser behind the
 * function-schema serialiser, the tolerant `<tool_call>` extractor, and the
 * fenced-JSON extractor. The XML parser, `json.loads` and `ast.literal_eval`
 * are parameters: partial functions whose `None` is the exception they raise.
 */
module EngineUtils {
  import opened Wrappers
  import opened Json
  import opened PyText

  // ---------------------------------------------------------------------------
  // get_type_name

  /** What `get_type_name` can see of a type annotation. */
  datatype TypeHint =
    | Generic(originName: string)   // has `__origin__`; `originName` is the origin's `__name__`
    | Named(name: string)           // has `__name__`
    | Unnamed(repr: string)         // neither: `str(typ)` is used

  /** `type(None)`, the hint used for unannotated parameters. */
  const NoneHint := Named("NoneType")

  function GetTypeName(t: TypeHint): (r: string)
    ensures t.Generic? && Lower(t.originName) == "list" ==> r == "array"
    ensures t.Generic? && Lower(t.originName) != "list" ==> r == Lower(t.originName)
    ensures t.Named? ==> r == Lower(t.name)
    ensures t.Unnamed? ==> r == Lower(t.repr)
  {
    match t
    case Generic(origin) => if Lower(origin) == "list" then "array" else Lower(origin)
    case Named(name) => Lower(name)
    case Unnamed(repr) => Lower(repr)
  }

  lemma LowerIdempotent(s: string)
    ensures Lower(Lower(s)) == Lower(s)
  {
    assert forall i :: 0 <= i < |s| ==> Lower(Lower(s))[i] == Lower(s)[i];
  }

  /** Every type name is already in lower case. */
  lemma TypeNameIsLowerCase(t: TypeHint)
    ensures Lower(GetTypeName(t)) == GetTypeName(t)
  {
    match t
    case Generic(origin) =>
      LowerIdempotent(origin);
      assert Lower("array") == "array";
    case Named(name) =>
      LowerIdempotent(name);
    case Unnamed(repr) =>
      LowerIdempotent(repr);
  }

  // ---------------------------------------------------------------------------
  // parse_docstring

  datatype Mode = DescriptionMode | ParamsMode

  /** The loop state of `parse_docstring`. */
  datatype DocState = DocState(mode: Mode, currentParam: string, params: map<string, string>, description: seq<string>)

  /** A named current parameter always has an entry (the continuation branch reads it). */
  predicate DocInv(st: DocState) {
    st.currentParam != "" ==> st.currentParam in st.params
  }

  /** A stripped line that switches to parameter mode. */
  predicate IsHeader(line: string) {
    Lower(line) == "args:" || Lower(line) == "parameters:"
  }

  /** One iteration of the loop over the docstring's lines. */
  function DocStep(st: DocState, raw: string): (r: DocState)
    requires DocInv(st)
    ensures DocInv(r)
  {
    var line := Strip(raw);
    if IsHeader(line) then st.(mode := ParamsMode)
    else if st.mode == DescriptionMode then st.(description := st.description + [line])
    else if ':' in line then
      var parts := SplitOnce(line, ':');
      var name := Strip(parts.0);
      st.(currentParam := name, params := st.params[name := Strip(parts.1)])
    else if st.currentParam != "" && line != "" then
      st.(params := st.params[st.currentParam := st.params[st.currentParam] + " " + line])
    else st
  }

  const DocStart := DocState(DescriptionMode, "", map[], [])

  /** The loop state after the given lines. */
  function DocRun(lines: seq<string>): (r: DocState)
    ensures DocInv(r)
    decreases |lines|
  {
    if |lines| == 0 then DocStart
    else DocStep(DocRun(lines[..|lines| - 1]), lines[|lines| - 1])
  }

  /** `parse_docstring(docstring)`: the description and the parameter descriptions. */
  function ParseDocstringSpec(doc: Option<string>): (r: (string, map<string, string>))
    ensures doc.None? || doc == Some("") ==> r == ("", map[])
  {
    if doc.None? || doc.value == "" then ("", map[])
    else
      var st := DocRun(Split(doc.value, '\n'));
      (Strip(Join("\n", st.description)), st.params)
  }

  method ParseDocstring(doc: Option<string>) returns (description: string, params: map<string, string>)
    ensures (description, params) == ParseDocstringSpec(doc)
  {
    if doc.None? || doc.value == "" {
      return "", map[];
    }
    var lines := Split(doc.value, '\n');
    var descriptionLines: seq<string> := [];
    params := map[];
    var mode := DescriptionMode;
    var currentParam := "";
    var i := 0;
    while i < |lines|
      invariant 0 <= i <= |lines|
      invariant DocRun(lines[..i]) == DocState(mode, currentParam, params, descriptionLines)
    {
      ghost var before := DocState(mode, currentParam, params, descriptionLines);
      DocRunPrefix(lines, i);
      var line := Strip(lines[i]);
      if IsHeader(line) {
        mode := ParamsMode;
      } else if mode == DescriptionMode {
        descriptionLines := descriptionLines + [line];
      } else if ':' in line {
        var parts := SplitOnce(line, ':');
        currentParam := Strip(parts.0);
        params := params[currentParam := Strip(parts.1)];
      } else if currentParam != "" && line != "" {
        params := params[currentParam := params[currentParam] + " " + line];
      }
      assert DocState(mode, currentParam, params, descriptionLines) == DocStep(before, lines[i]);
      i := i + 1;
    }
    assert lines[..i] == lines;
    description := Strip(Join("\n", descriptionLines));
  }

  /** An unstripped docstring line that switches to parameter mode. */
  predicate HeaderLine(raw: string) {
    IsHeader(Strip(raw))
  }

  function StripAll(lines: seq<string>): (r: seq<string>)
    ensures |r| == |lines| && forall k :: 0 <= k < |lines| ==> r[k] == Strip(lines[k])
  {
    seq(|lines|, k requires 0 <= k < |lines| => Strip(lines[k]))
  }

  /** In description mode a line that is not a header is appended, stripped. */
  lemma DescriptionStep(st: DocState, raw: string)
    requires DocInv(st) && st.mode == DescriptionMode && !HeaderLine(raw)
    ensures DocStep(st, raw) == st.(description := st.description + [Strip(raw)])
  {
  }

  lemma StripAllSnoc(lines: seq<string>, raw: string)
    ensures StripAll(lines + [raw]) == StripAll(lines) + [Strip(raw)]
  {
    assert forall k :: 0 <= k < |lines| ==> (lines + [raw])[k] == lines[k];
  }

  /** Before any header, every line joins the description and no parameter is recorded. */
  lemma {:induction false} DescriptionWithoutHeader(lines: seq<string>)
    requires forall j {:trigger HeaderLine(lines[j])} :: 0 <= j < |lines| ==> !HeaderLine(lines[j])
    ensures DocRun(lines) == DocState(DescriptionMode, "", map[], StripAll(lines))
    decreases |lines|
  {
    if |lines| > 0 {
      var n := |lines|;
      var prefix := lines[..n - 1];
      var last := lines[n - 1];
      var st := DocRun(prefix);
      assert st == DocState(DescriptionMode, "", map[], StripAll(prefix)) by {
        assert forall j :: 0 <= j < n - 1 ==> prefix[j] == lines[j];
        DescriptionWithoutHeader(prefix);
      }
      assert DocRun(lines) == st.(description := st.description + [Strip(last)]) by {
        assert !HeaderLine(last);
        DescriptionStep(st, last);
      }
      assert StripAll(lines) == StripAll(prefix) + [Strip(last)] by {
        StripAllSnoc(prefix, last);
        assert lines == prefix + [last];
      }
    }
  }

  /** Parameter mode is never left, and the description no longer grows. */
  lemma {:induction false} ParamsModeIsKept(lines: seq<string>, more: seq<string>)
    requires DocRun(lines).mode == ParamsMode
    ensures DocRun(lines + more).mode == ParamsMode
    ensures DocRun(lines + more).description == DocRun(lines).description
    decreases |more|
  {
    if |more| == 0 {
      assert lines + more == lines;
    } else {
      var shorter, last := more[..|more| - 1], more[|more| - 1];
      ConcatSnoc(lines, more);
      ParamsModeIsKept(lines, shorter);
      ParamsLineKeeps(lines + shorter, last);
    }
  }

  /** One more line is one more loop iteration. */
  lemma DocRunSnoc(lines: seq<string>, raw: string)
    ensures DocRun(lines + [raw]) == DocStep(DocRun(lines), raw)
  {
    assert (lines + [raw])[..|lines|] == lines;
  }

  /** The loop state after `i + 1` lines is one more iteration after `i` lines. */
  lemma DocRunPrefix(lines: seq<string>, i: nat)
    requires i < |lines|
    ensures DocRun(lines[..i + 1]) == DocStep(DocRun(lines[..i]), lines[i])
  {
    assert lines[..i + 1] == lines[..i] + [lines[i]];
    DocRunSnoc(lines[..i], lines[i]);
  }

  lemma ConcatSnoc(lines: seq<string>, more: seq<string>)
    requires |more| > 0
    ensures lines + more == (lines + more[..|more| - 1]) + [more[|more| - 1]]
  {
    assert more == more[..|more| - 1] + [more[|more| - 1]];
  }

  lemma ParamsLineKeeps(lines: seq<string>, raw: string)
    requires DocRun(lines).mode == ParamsMode
    ensures DocRun(lines + [raw]).mode == ParamsMode
    ensures DocRun(lines + [raw]).description == DocRun(lines).description
  {
    DocRunSnoc(lines, raw);
  }

  /**
   * The description is made of the stripped lines before the first header
   * (the header itself is not part of it), and parameter mode lasts from that
   * header to the end, whatever follows.
   */
  lemma DescriptionEndsAtFirstHeader(before: seq<string>, header: string, after: seq<string>)
    requires forall j {:trigger HeaderLine(before[j])} :: 0 <= j < |before| ==> !HeaderLine(before[j])
    requires HeaderLine(header)
    ensures DocRun(before + [header] + after).description == StripAll(before)
    ensures DocRun(before + [header] + after).mode == ParamsMode
  {
    DescriptionWithoutHeader(before);
    assert (before + [header])[..|before|] == before;
    ParamsModeIsKept(before + [header], after);
  }

  /**
   * In parameter mode a line with a `:` records the stripped text after the
   * first `:` under the stripped text before it, replacing any earlier entry.
   */
  lemma ParamLineSetsEntry(lines: seq<string>, raw: string)
    requires DocRun(lines).mode == ParamsMode
    requires !IsHeader(Strip(raw)) && ':' in Strip(raw)
    ensures var parts := SplitOnce(Strip(raw), ':');
      && DocRun(lines + [raw]).currentParam == Strip(parts.0)
      && DocRun(lines + [raw]).params == DocRun(lines).params[Strip(parts.0) := Strip(parts.1)]
  {
    DocRunSnoc(lines, raw);
  }

  /** A non-empty line without `:` is appended, after one space, to the current parameter. */
  lemma ContinuationAppends(lines: seq<string>, raw: string)
    requires DocRun(lines).mode == ParamsMode && DocRun(lines).currentParam != ""
    requires !IsHeader(Strip(raw)) && ':' !in Strip(raw) && Strip(raw) != ""
    ensures var st := DocRun(lines);
      DocRun(lines + [raw]).params == st.params[st.currentParam := st.params[st.currentParam] + " " + Strip(raw)]
  {
    DocRunSnoc(lines, raw);
  }

  /** With no named parameter yet, a line without `:` is dropped. */
  lemma ContinuationDroppedWithoutParam(lines: seq<string>, raw: string)
    requires DocRun(lines).mode == ParamsMode && DocRun(lines).currentParam == ""
    requires !IsHeader(Strip(raw)) && ':' !in Strip(raw)
    ensures DocRun(lines + [raw]) == DocRun(lines)
  {
    DocRunSnoc(lines, raw);
  }

  // ---------------------------------------------------------------------------
  // serialize_function_to_json

  datatype DefaultValue = NoDefault | EnumDefault | DefaultOf(value: Json)

  /**
   * One parameter of `inspect.signature(func)`: its name, its entry in
   * `get_type_hints` (if any), the member values of its annotation when that is
   * an `Enum` subclass, and its default.
   */
  datatype ParamSig = ParamSig(name: string, hint: Option<TypeHint>, enumValues: Option<seq<Json>>, default: DefaultValue)

  datatype FunctionSig = FunctionSig(name: string, doc: Option<string>, params: seq<ParamSig>)

  /** The schema entry of one parameter. */
  function ParamInfo(p: ParamSig, descriptions: map<string, string>): (r: map<string, Json>)
    ensures "type" in r && "description" in r
    ensures r["description"] == JStr(if p.name in descriptions then descriptions[p.name] else "")
    ensures p.enumValues.Some? ==> r["type"] == JStr("string") && "enum" in r && r["enum"] == JArr(p.enumValues.value)
    ensures p.enumValues.None? ==>
      r["type"] == JStr(GetTypeName(if p.hint.Some? then p.hint.value else NoneHint)) && "enum" !in r
    ensures "default" in r <==> p.default.DefaultOf?
    ensures p.default.DefaultOf? ==> r["default"] == p.default.value
  {
    var typeName := GetTypeName(if p.hint.Some? then p.hint.value else NoneHint);
    var base := map["type" := JStr(typeName), "description" := JStr(if p.name in descriptions then descriptions[p.name] else "")];
    var withEnum := if p.enumValues.Some? then base["type" := JStr("string")]["enum" := JArr(p.enumValues.value)] else base;
    if p.default.DefaultOf? then withEnum["default" := p.default.value] else withEnum
  }

  /** No later parameter in `params[..n]` has the name of `params[k]`. */
  predicate LastWithName(params: seq<ParamSig>, k: int, n: int)
    requires 0 <= k < n <= |params|
  {
    forall j :: k < j < n ==> params[j].name != params[k].name
  }

  /** The parameter names of a signature. */
  function ParamNames(params: seq<ParamSig>): (r: set<string>)
    ensures forall k :: 0 <= k < |params| ==> params[k].name in r
    ensures forall n :: n in r ==> exists k :: 0 <= k < |params| && params[k].name == n
    decreases |params|
  {
    if |params| == 0 then {}
    else
      var prefix := params[..|params| - 1];
      var r := ParamNames(prefix);
      assert forall k :: 0 <= k < |params| - 1 ==> params[k] == prefix[k];
      r + {params[|params| - 1].name}
  }

  /**
   * The `properties` object: one entry per parameter name, holding the schema
   * entry of the last parameter with that name.
   */
  predicate PropertiesFor(properties: map<string, Json>, params: seq<ParamSig>, descriptions: map<string, string>) {
    && properties.Keys == ParamNames(params)
    && forall k :: 0 <= k < |params| && LastWithName(params, k, |params|) ==>
         properties[params[k].name] == JObj(ParamInfo(params[k], descriptions))
  }

  /** Adding one more parameter's entry keeps `PropertiesFor` for the longer list. */
  lemma PropertiesExtend(properties: map<string, Json>, params: seq<ParamSig>, p: ParamSig, descriptions: map<string, string>)
    requires PropertiesFor(properties, params, descriptions)
    ensures PropertiesFor(properties[p.name := JObj(ParamInfo(p, descriptions))], params + [p], descriptions)
  {
    var longer := params + [p];
    var updated := properties[p.name := JObj(ParamInfo(p, descriptions))];
    assert longer[..|params|] == params;
    assert updated.Keys == ParamNames(longer);
    forall k | 0 <= k < |longer| && LastWithName(longer, k, |longer|)
      ensures updated[longer[k].name] == JObj(ParamInfo(longer[k], descriptions))
    {
      if k < |params| {
        assert longer[k] == params[k];
        assert LastWithName(params, k, |params|) by {
          forall j | k < j < |params| ensures params[j].name != params[k].name {
            assert longer[j] == params[j];
          }
        }
        assert longer[k].name != p.name by {
          assert longer[|params|] == p;
        }
      }
    }
  }

  /** The loop over `signature.parameters`. */
  method BuildProperties(params: seq<ParamSig>, descriptions: map<string, string>) returns (properties: map<string, Json>)
    ensures PropertiesFor(properties, params, descriptions)
  {
    properties := map[];
    var i := 0;
    while i < |params|
      invariant 0 <= i <= |params|
      invariant PropertiesFor(properties, params[..i], descriptions)
    {
      var p := params[i];
      PropertiesExtend(properties, params[..i], p, descriptions);
      SliceSnoc(params, i);
      properties := properties[p.name := JObj(ParamInfo(p, descriptions))];
      i := i + 1;
    }
    assert params[..i] == params;
  }

  lemma SliceSnoc(params: seq<ParamSig>, i: int)
    requires 0 <= i < |params|
    ensures params[..i + 1] == params[..i] + [params[i]]
  {
  }

  /** The `required` list as JSON. */
  function RequiredJson(names: seq<string>): (r: Json)
    ensures r.JArr? && |r.items| == |names| && forall k :: 0 <= k < |names| ==> r.items[k] == JStr(names[k])
  {
    JArr(seq(|names|, k requires 0 <= k < |names| => JStr(names[k])))
  }

  /** The `parameters` object of the schema. */
  predicate ParametersFor(ps: map<string, Json>, params: seq<ParamSig>, descriptions: map<string, string>, requiredParams: Option<seq<string>>) {
    && Get(ps, "type") == JStr("object")
    && ("required" in ps <==> requiredParams.Some?)
    && (requiredParams.Some? ==> ps["required"] == RequiredJson(requiredParams.value))
    && "properties" in ps && ps["properties"].JObj?
    && PropertiesFor(ps["properties"].fields, params, descriptions)
  }

  function ParametersJson(properties: map<string, Json>, requiredParams: Option<seq<string>>): map<string, Json> {
    var base := map["type" := JStr("object"), "properties" := JObj(properties)];
    if requiredParams.Some? then base["required" := RequiredJson(requiredParams.value)] else base
  }

  lemma ParametersJsonFor(properties: map<string, Json>, params: seq<ParamSig>, descriptions: map<string, string>, requiredParams: Option<seq<string>>)
    requires PropertiesFor(properties, params, descriptions)
    ensures ParametersFor(ParametersJson(properties, requiredParams), params, descriptions, requiredParams)
  {
    var ps := ParametersJson(properties, requiredParams);
    assert "type" != "required" && "properties" != "required" && "type" != "properties";
    assert Get(ps, "type") == JStr("object");
    assert ps["properties"] == JObj(properties);
  }

  /**
   * `serialize_function_to_json(func, required_params)`: the name, the docstring's
   * description, and a `parameters` object with `required` present exactly when a
   * list was given and exactly one property per parameter.
   */
  method SerializeFunctionToJson(f: FunctionSig, requiredParams: Option<seq<string>>) returns (r: Json)
    ensures r.JObj? && Get(r.fields, "name") == JStr(f.name)
    ensures Get(r.fields, "description") == JStr(ParseDocstringSpec(f.doc).0)
    ensures Get(r.fields, "parameters").JObj? && ParametersFor(Get(r.fields, "parameters").fields, f.params, ParseDocstringSpec(f.doc).1, requiredParams)
  {
    var description, descriptions := ParseDocstring(f.doc);
    var properties := BuildProperties(f.params, descriptions);
    var parameters := ParametersJson(properties, requiredParams);
    ParametersJsonFor(properties, f.params, descriptions, requiredParams);
    r := JObj(map["name" := JStr(f.name), "description" := JStr(description), "parameters" := JObj(parameters)]);
    assert "name" != "description" && "name" != "parameters" && "description" != "parameters";
  }

  // ---------------------------------------------------------------------------
  // validate_and_extract_tool_calls

  /** The error message kept by the extractor: the last one raised wins. */
  datatype ExtractError = XmlParseError | NoText | Undecodable(text: string)

  /** What one `<tool_call>` element yields. */
  datatype Fragment = Decoded(value: Json) | FragmentError(err: ExtractError)

  /**
   * An element's text (absent when it has none) stripped, then `json.loads`,
   * then `ast.literal_eval`.
   */
  function DecodeFragment(text: Option<string>, jsonLoads: string -> Option<Json>, literalEval: string -> Option<Json>): (r: Fragment)
    ensures text.None? ==> r == FragmentError(NoText)
    ensures text.Some? && jsonLoads(Strip(text.value)).Some? ==> r == Decoded(jsonLoads(Strip(text.value)).value)
    ensures r.Decoded? ==> text.Some? && (jsonLoads(Strip(text.value)) == Some(r.value) || literalEval(Strip(text.value)) == Some(r.value))
  {
    match text
    case None => FragmentError(NoText)
    case Some(t) =>
      var s := Strip(t);
      match jsonLoads(s)
      case Some(j) => Decoded(j)
      case None =>
        match literalEval(s)
        case Some(j) => Decoded(j)
        case None => FragmentError(Undecodable(s))
  }

  /** `(validation_result, tool_calls, error_message)` */
  datatype Extraction = Extraction(valid: bool, toolCalls: seq<Json>, error: Option<ExtractError>)

  /** A decoded `None` is skipped silently; a failure only replaces the error message. */
  function ExtractStep(e: Extraction, f: Fragment): (r: Extraction)
    ensures f.Decoded? && f.value != JNull ==> r.valid && r.toolCalls == e.toolCalls + [f.value] && r.error == e.error
    ensures f.Decoded? && f.value == JNull ==> r == e
    ensures f.FragmentError? ==> r.valid == e.valid && r.toolCalls == e.toolCalls && r.error == Some(f.err)
  {
    match f
    case Decoded(j) => if j == JNull then e else Extraction(true, e.toolCalls + [j], e.error)
    case FragmentError(err) => e.(error := Some(err))
  }

  function ExtractRun(frags: seq<Fragment>): (r: Extraction)
    ensures r.valid <==> |r.toolCalls| > 0
    decreases |frags|
  {
    if |frags| == 0 then Extraction(false, [], None)
    else ExtractStep(ExtractRun(frags[..|frags| - 1]), frags[|frags| - 1])
  }

  function DecodeAll(texts: seq<Option<string>>, jsonLoads: string -> Option<Json>, literalEval: string -> Option<Json>): (r: seq<Fragment>)
    ensures |r| == |texts| && forall k :: 0 <= k < |texts| ==> r[k] == DecodeFragment(texts[k], jsonLoads, literalEval)
  {
    seq(|texts|, k requires 0 <= k < |texts| => DecodeFragment(texts[k], jsonLoads, literalEval))
  }

  /**
   * `validate_and_extract_tool_calls(content)`; `parseXml` yields the texts of
   * every `tool_call` element in document order, or `None` on a parse error.
   */
  function ExtractToolCalls(
    content: string, parseXml: string -> Option<seq<Option<string>>>,
    jsonLoads: string -> Option<Json>, literalEval: string -> Option<Json>): (r: Extraction)
    ensures parseXml("<root>" + content + "</root>").None? ==> r == Extraction(false, [], Some(XmlParseError))
    ensures r.valid <==> |r.toolCalls| > 0
  {
    match parseXml("<root>" + content + "</root>")
    case None => Extraction(false, [], Some(XmlParseError))
    case Some(texts) => ExtractRun(DecodeAll(texts, jsonLoads, literalEval))
  }

  method ValidateAndExtractToolCalls(
    content: string, parseXml: string -> Option<seq<Option<string>>>,
    jsonLoads: string -> Option<Json>, literalEval: string -> Option<Json>)
    returns (valid: bool, toolCalls: seq<Json>, error: Option<ExtractError>)
    ensures Extraction(valid, toolCalls, error) == ExtractToolCalls(content, parseXml, jsonLoads, literalEval)
  {
    valid, toolCalls, error := false, [], None;
    var parsed := parseXml("<root>" + content + "</root>");
    if parsed.None? {
      error := Some(XmlParseError);
      return;
    }
    var texts := parsed.value;
    ghost var frags := DecodeAll(texts, jsonLoads, literalEval);
    var i := 0;
    while i < |texts|
      invariant 0 <= i <= |texts|
      invariant ExtractRun(frags[..i]) == Extraction(valid, toolCalls, error)
    {
      assert frags[..i + 1][..i] == frags[..i];
      var text := texts[i];
      if text.None? {
        error := Some(NoText);
      } else {
        var s := Strip(text.value);
        var data := jsonLoads(s);
        if data.None? {
          data := literalEval(s);
          if data.None? {
            error := Some(Undecodable(s));
          }
        }
        if data.Some? && data.value != JNull {
          toolCalls := toolCalls + [data.value];
          valid := true;
        }
      }
      i := i + 1;
    }
    assert frags[..i] == frags;
  }

  /** The reference reading: the decoded, non-null fragments, in document order. */
  function Kept(frags: seq<Fragment>): (r: seq<Json>)
    ensures |r| <= |frags|
    ensures forall k :: 0 <= k < |r| ==> r[k] != JNull
    decreases |frags|
  {
    if |frags| == 0 then []
    else (if frags[0].Decoded? && frags[0].value != JNull then [frags[0].value] else []) + Kept(frags[1..])
  }

  lemma {:induction false} KeptAppend(a: seq<Fragment>, b: seq<Fragment>)
    ensures Kept(a + b) == Kept(a) + Kept(b)
    decreases |a|
  {
    if |a| == 0 {
      assert a + b == b;
    } else {
      assert (a + b)[1..] == a[1..] + b;
      KeptAppend(a[1..], b);
    }
  }

  /** The extracted calls are exactly the fragments that decoded to something other than `None`. */
  lemma {:induction false} ExtractRunKeeps(frags: seq<Fragment>)
    ensures ExtractRun(frags).toolCalls == Kept(frags)
    decreases |frags|
  {
    if |frags| > 0 {
      var prefix := frags[..|frags| - 1];
      var last := frags[|frags| - 1];
      ExtractRunKeeps(prefix);
      assert frags == prefix + [last];
      KeptAppend(prefix, [last]);
      assert [last][1..] == [];
    }
  }

  /** A fragment that fails to decode neither stops the extraction nor changes what else is kept. */
  lemma FailedFragmentIsSkipped(a: seq<Fragment>, err: ExtractError, b: seq<Fragment>)
    ensures ExtractRun(a + [FragmentError(err)] + b).toolCalls == ExtractRun(a + b).toolCalls
  {
    ExtractRunKeeps(a + [FragmentError(err)] + b);
    ExtractRunKeeps(a + b);
    KeptAppend(a + [FragmentError(err)], b);
    KeptAppend(a, [FragmentError(err)]);
    KeptAppend(a, b);
    assert [FragmentError(err)][1..] == [];
  }

  // ---------------------------------------------------------------------------
  // extract_json_from_markdown

  /** `pat` occurs in `text` at position `p`. */
  predicate At(text: string, p: nat, pat: string) {
    p + |pat| <= |text| && text[p..p + |pat|] == pat
  }

  /** Where the block's content starts when the opening fence "```json", `\r?`, `\n` matches at `p`. */
  function OpenAt(text: string, p: nat): (r: Option<nat>)
    ensures r.Some? ==> At(text, p, "```json") && p + 8 <= r.value <= p + 9 && r.value <= |text|
  {
    if At(text, p, "```json\n") then
      assert text[p..p + 7] == text[p..p + 8][..7];
      Some(p + 8)
    else if At(text, p, "```json\r\n") then
      assert text[p..p + 7] == text[p..p + 9][..7];
      Some(p + 9)
    else None
  }

  /** A closing `\r?\n```` matches at `q`. */
  predicate CloseAt(text: string, q: nat) {
    At(text, q, "\n```") || At(text, q, "\r\n```")
  }

  /** The first closing position at or after `q`: the lazy group ends there. */
  function CloseFrom(text: string, q: nat): (r: Option<nat>)
    ensures r.Some? ==> q <= r.value < |text| && CloseAt(text, r.value)
    ensures r.Some? ==> forall j :: q <= j < r.value ==> !CloseAt(text, j)
    ensures r.None? ==> forall j :: q <= j < |text| ==> !CloseAt(text, j)
    decreases |text| - q
  {
    if q >= |text| then None
    else if CloseAt(text, q) then Some(q)
    else CloseFrom(text, q + 1)
  }

  /** `re.search(r'```json\r?\n(.*?)\r?\n```', text[p..], re.DOTALL).group(1)`, start positions tried in order. */
  function SearchFrom(text: string, p: nat): (r: Option<string>)
    decreases |text| - p
  {
    if p >= |text| then None
    else
      match OpenAt(text, p)
      case Some(c) =>
        (match CloseFrom(text, c)
         case Some(q) => Some(text[c..q])
         case None => SearchFrom(text, p + 1))
      case None => SearchFrom(text, p + 1)
  }

  /** `extract_json_from_markdown(text)`; `JNull` is the Python `None` it returns on every failure. */
  function ExtractJsonFromMarkdown(text: string, jsonLoads: string -> Option<Json>): (r: Json)
    ensures SearchFrom(text, 0).None? ==> r == JNull
    ensures SearchFrom(text, 0).Some? && jsonLoads(SearchFrom(text, 0).value).Some? ==> r == jsonLoads(SearchFrom(text, 0).value).value
    ensures SearchFrom(text, 0).Some? && jsonLoads(SearchFrom(text, 0).value).None? ==> r == JNull
  {
    match SearchFrom(text, 0)
    case None => JNull
    case Some(g) =>
      match jsonLoads(g)
      case Some(j) => j
      case None => JNull
  }

  /** A fenced block starts at `j`: an opening fence there, and a closing one somewhere after it. */
  predicate BlockAt(text: string, j: nat) {
    OpenAt(text, j).Some? && CloseFrom(text, OpenAt(text, j).value).Some?
  }

  /** The body of the block that starts at `j`: the text between its two fences. */
  function BlockBody(text: string, j: nat): string
    requires BlockAt(text, j)
  {
    text[OpenAt(text, j).value..CloseFrom(text, OpenAt(text, j).value).value]
  }

  /**
   * `re.search` reports the block at the leftmost start position that has one,
   * and reports no match exactly when no position from `p` on starts a block.
   */
  lemma {:induction false} SearchFindsFirstBlock(text: string, p: nat)
    ensures SearchFrom(text, p).None? ==> forall j :: p <= j < |text| ==> !BlockAt(text, j)
    ensures SearchFrom(text, p).Some? ==>
      exists j :: p <= j < |text| && BlockAt(text, j) && SearchFrom(text, p).value == BlockBody(text, j)
        && forall i :: p <= i < j ==> !BlockAt(text, i)
    decreases |text| - p
  {
    if p < |text| && !BlockAt(text, p) {
      SearchFindsFirstBlock(text, p + 1);
      assert SearchFrom(text, p) == SearchFrom(text, p + 1);
      if SearchFrom(text, p).Some? {
        var j :| p + 1 <= j < |text| && BlockAt(text, j) && SearchFrom(text, p + 1).value == BlockBody(text, j)
          && forall i :: p + 1 <= i < j ==> !BlockAt(text, i);
        assert forall i :: p <= i < j ==> !BlockAt(text, i);
      }
    } else if p < |text| {
      assert SearchFrom(text, p).value == BlockBody(text, p);
    }
  }

  /** Without an opening fence there is nothing to decode. */
  lemma {:induction false} NoFenceNoBlock(text: string, p: nat)
    requires forall j :: p <= j < |text| ==> !At(text, j, "```json")
    ensures SearchFrom(text, p).None?
    decreases |text| - p
  {
    if p < |text| {
      NoFenceNoBlock(text, p + 1);
    }
  }

  /**
   * A text that is one fenced block, whose body holds no closing delimiter,
   * yields the decoding of exactly that body.
   */
  lemma SingleBlock(body: string, jsonLoads: string -> Option<Json>)
    requires forall q :: 8 <= q < 8 + |body| ==> !CloseAt("```json\n" + body + "\n```", q)
    ensures SearchFrom("```json\n" + body + "\n```", 0) == Some(body)
    ensures ExtractJsonFromMarkdown("```json\n" + body + "\n```", jsonLoads) == (if jsonLoads(body).Some? then jsonLoads(body).value else JNull)
  {
    var text := "```json\n" + body + "\n```";
    assert text[0..8] == "```json\n";
    assert OpenAt(text, 0) == Some(8);
    var e := 8 + |body|;
    assert text[e..e + 4] == "\n```";
    assert CloseAt(text, e);
    var c := CloseFrom(text, 8);
    assert c.Some? && c.value == e;
    assert text[8..e] == body;
  }
}
