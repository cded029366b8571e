/**
 * Model of src/lib/vertex.ts: the lazily created generative-model handle,
 * the extraction of a JSON payload from free-form model output, and the
 * success/sentinel ladders of the three evaluators. The prompts, the SDK call
 * and `JSON.parse` are not modelled; the outcome of the call and a partial
 * parse function are parameters.
 */
module Vertex {
  import opened Wrappers
  import opened JsString

  // ---------------------------------------------------------------------
  // Configuration and the lazily initialised model (vertex.ts:3-31)
  // ---------------------------------------------------------------------

  const ModelId: string := "gemini-2.5-pro"
  const DefaultLocation: string := "us-central1"
  const MaxOutputTokens: nat := 8192

  /** A JavaScript string value read from the environment is truthy when present and non-empty. */
  predicate Truthy(s: Option<string>) {
    s.Some? && s.value != ""
  }

  /** The `VertexAI` client object. */
  class VertexClient {
    const project: string
    const location: string

    constructor (project: string, location: string)
      ensures this.project == project && this.location == location
    {
      this.project := project;
      this.location := location;
    }
  }

  /** The handle `getGenerativeModel` returns, with the configuration it was created with. */
  class GenerativeModel {
    const project: string
    const location: string
    const modelId: string
    const maxOutputTokens: nat
    const googleSearch: bool

    constructor (client: VertexClient, modelId: string, maxOutputTokens: nat)
      ensures project == client.project && location == client.location
      ensures this.modelId == modelId && this.maxOutputTokens == maxOutputTokens
      ensures googleSearch
    {
      project := client.project;
      location := client.location;
      this.modelId := modelId;
      this.maxOutputTokens := maxOutputTokens;
      googleSearch := true;
    }
  }

  /** The module-level state of vertex.ts: its configuration and the two mutable globals. */
  class VertexState {
    const projectId: Option<string>
    const location: string
    var vertexAI: VertexClient?
    var model: GenerativeModel?

    /** Once created, the model is the one configured for this project and location. */
    ghost predicate Valid()
      reads this
    {
      model != null ==>
        && ProjectConfigured()
        && vertexAI != null
        && model.project == projectId.value
        && model.location == location
        && model.modelId == ModelId
        && model.maxOutputTokens == MaxOutputTokens
    }

    predicate ProjectConfigured() {
      Truthy(projectId)
    }

    /** Module load: GOOGLE_CLOUD_LOCATION falls back to us-central1, both globals start null. */
    constructor (projectEnv: Option<string>, locationEnv: Option<string>)
      ensures Valid()
      ensures projectId == projectEnv
      ensures location == if Truthy(locationEnv) then locationEnv.value else DefaultLocation
      ensures vertexAI == null && model == null
    {
      projectId := projectEnv;
      location := if Truthy(locationEnv) then locationEnv.value else DefaultLocation;
      vertexAI := null;
      model := null;
    }

    /**
     * `getModel`: returns null, caching nothing, while the project id is
     * unset; otherwise creates the client and the model on the first call
     * and returns that same model on every later call.
     */
    method GetModel() returns (m: GenerativeModel?)
      requires Valid()
      modifies this
      ensures Valid()
      ensures old(model) != null ==> m == old(model) && model == old(model) && vertexAI == old(vertexAI)
      ensures old(model) == null && !ProjectConfigured() ==> m == null && model == null && vertexAI == old(vertexAI)
      ensures old(model) == null && ProjectConfigured() ==>
        && m != null && fresh(m) && fresh(vertexAI) && model == m
        && vertexAI != null && vertexAI.project == projectId.value && vertexAI.location == location
        && m.project == projectId.value && m.location == location
        && m.modelId == ModelId && m.maxOutputTokens == MaxOutputTokens && m.googleSearch
      ensures m != null <==> ProjectConfigured()
    {
      if model == null {
        if !ProjectConfigured() {
          return null;
        }
        vertexAI := new VertexClient(projectId.value, location);
        model := new GenerativeModel(vertexAI, ModelId, MaxOutputTokens);
      }
      m := model;
    }
  }

  /** Two calls in a row give the very same model object (or null twice). */
  method GetModelTwice(state: VertexState) returns (first: GenerativeModel?, second: GenerativeModel?)
    requires state.Valid()
    modifies state
    ensures state.Valid()
    ensures first == second && state.model == second
    ensures first != null <==> state.ProjectConfigured()
  {
    first := state.GetModel();
    second := state.GetModel();
  }

  // ---------------------------------------------------------------------
  // cleanJson (vertex.ts:33-45)
  // ---------------------------------------------------------------------

  const Fence: string := "```"
  const JsonTag: string := "json"
  const FenceWithTag: string := "```json"

  /** Where the payload of a fence opened at `open` starts: after the fence and an optional `json` tag. */
  function ContentStart(text: string, open: nat): nat {
    if MatchAt(text, JsonTag, open + |Fence|) then open + |Fence| + |JsonTag| else open + |Fence|
  }

  /** `open` is the first fence in `text`. */
  ghost predicate FirstFence(text: string, open: nat) {
    MatchAt(text, Fence, open) && forall i: nat :: i < open ==> !MatchAt(text, Fence, i)
  }

  /** `close` is the earliest fence at or after `from`. */
  ghost predicate NextFence(text: string, from: nat, close: nat) {
    from <= close && MatchAt(text, Fence, close) && forall i: nat :: from <= i < close ==> !MatchAt(text, Fence, i)
  }

  /**
   * Stage 1, the regular expression /```(?:json)?\s*([\s\S]*?)\s*```/: the text
   * between the first fence (and its optional tag) and the earliest fence after
   * it, and nothing when either fence is missing. The expression's captured
   * group, trimmed, is this text trimmed, and the group is empty exactly when
   * this text is all white space.
   */
  function FencedBlock(text: string): (r: Option<string>)
    ensures r.Some? ==> exists open: nat, close: nat ::
      FirstFence(text, open) && NextFence(text, ContentStart(text, open), close)
    ensures forall open: nat, close: nat ::
      FirstFence(text, open) && NextFence(text, ContentStart(text, open), close) ==>
        r == Some(text[ContentStart(text, open)..close])
  {
    match IndexOf(text, Fence, 0)
    case None => None
    case Some(open) =>
      var start := ContentStart(text, open);
      match IndexOf(text, Fence, start)
      case None => None
      case Some(close) =>
        assert FirstFence(text, open) && NextFence(text, start, close);
        Some(text[start..close])
  }

  /** `first` is the first `{` in `text`. */
  predicate FirstOpenBrace(text: string, first: nat) {
    first < |text| && text[first] == '{' && forall i :: 0 <= i < first ==> text[i] != '{'
  }

  /** `last` is the last `}` in `text`. */
  predicate LastCloseBrace(text: string, last: nat) {
    last < |text| && text[last] == '}' && forall i :: last < i < |text| ==> text[i] != '}'
  }

  /**
   * Stage 2, the regular expression /(\{[\s\S]*\})/: from the first `{` to the
   * last `}`, and nothing exactly when no `{` comes before a `}`.
   */
  function BraceSpan(text: string): (r: Option<string>)
    ensures r.None? <==> forall i, j :: 0 <= i < j < |text| ==> !(text[i] == '{' && text[j] == '}')
    ensures r.Some? ==> exists first: nat, last: nat ::
      first < last && FirstOpenBrace(text, first) && LastCloseBrace(text, last)
    ensures forall first: nat, last: nat ::
      first < last && FirstOpenBrace(text, first) && LastCloseBrace(text, last) ==>
        r == Some(text[first..last + 1])
  {
    match IndexOfChar(text, '{', 0)
    case None => None
    case Some(first) =>
      match LastIndexOfChar(text, '}')
      case None => None
      case Some(last) =>
        assert FirstOpenBrace(text, first) && LastCloseBrace(text, last);
        if first < last then Some(text[first..last + 1]) else None
  }

  /**
   * Stage 3: every "```json", then every "```", removed, then trimmed; no
   * fence is left. (`RemoveAllFirstMatch` characterises each removal.)
   */
  function StripFences(text: string): (r: string)
    ensures r == Trim(RemoveAll(RemoveAll(text, FenceWithTag), Fence))
    ensures IsTrimmed(r)
    ensures NoMatch(r, Fence)
  {
    var stripped := RemoveAll(RemoveAll(text, FenceWithTag), Fence);
    RemoveFencesLeavesNone(RemoveAll(text, FenceWithTag));
    TrimKeepsNoMatch(stripped, Fence);
    Trim(stripped)
  }

  /** Stage 1 applies when it finds a block whose content is not all white space. */
  predicate FencedStageApplies(text: string) {
    FencedBlock(text).Some? && Trim(FencedBlock(text).value) != ""
  }

  /** `cleanJson`: the three stages in order; the result never starts or ends with white space. */
  function CleanJson(text: string): (r: string)
    ensures IsTrimmed(r)
  {
    if FencedStageApplies(text) then Trim(FencedBlock(text).value)
    else match BraceSpan(text)
      case Some(span) => Trim(span)
      case None => StripFences(text)
  }

  /**
   * Stage 1: when `open` is the first fence and `close` the first fence after
   * the opening fence and its optional tag, and the text between them is not
   * all white space, the result is that text trimmed.
   */
  lemma CleanJsonFencedStage(text: string, open: nat, close: nat)
    requires FirstFence(text, open) && NextFence(text, ContentStart(text, open), close)
    requires !AllWhitespace(text[ContentStart(text, open)..close])
    ensures CleanJson(text) == Trim(text[ContentStart(text, open)..close])
  {
  }

  /**
   * A fenced block with empty or blank content is skipped: the brace span is
   * returned when there is one, the stripped text otherwise.
   */
  lemma CleanJsonBlankFence(text: string, open: nat, close: nat)
    requires FirstFence(text, open) && NextFence(text, ContentStart(text, open), close)
    requires AllWhitespace(text[ContentStart(text, open)..close])
    ensures CleanJson(text) == match BraceSpan(text) case Some(span) => span case None => StripFences(text)
  {
    if BraceSpan(text).Some? {
      TrimTrimmed(BraceSpan(text).value);
    }
  }

  /** A blank fence in front of an object: the fence is skipped and the object returned. */
  lemma CleanJsonBlankFenceExample(text: string)
    requires text == "```json\n```{\"a\":1}"
    ensures CleanJson(text) == "{\"a\":1}"
  {
    ExampleFences(text);
    CleanJsonBlankFence(text, 0, 8);
    ExampleBraceSpan(text);
  }

  /** In the example, the fences are at 0 and 8 with only a line break between them. */
  lemma ExampleFences(text: string)
    requires text == "```json\n```{\"a\":1}"
    ensures FirstFence(text, 0) && NextFence(text, ContentStart(text, 0), 8)
    ensures AllWhitespace(text[ContentStart(text, 0)..8])
  {
    assert |text| == 18;
    assert text[0..3] == Fence;
    assert text[3..7] == JsonTag;
    assert ContentStart(text, 0) == 7;
    assert !MatchAt(text, Fence, 7) by { assert text[7] == '\n'; }
    assert text[8..11] == Fence;
    assert text[7..8] == "\n";
  }

  /** In the example, stage 2 finds the object after the fences. */
  lemma ExampleBraceSpan(text: string)
    requires text == "```json\n```{\"a\":1}"
    ensures BraceSpan(text) == Some("{\"a\":1}")
  {
    var prefix, payload := "```json\n```", "{\"a\":1}";
    assert text == prefix + payload;
    assert forall i :: 0 <= i < 11 ==> text[i] == prefix[i];
    assert '{' !in prefix;
    IndexOfCharFinds(text, '{', 0, 11);
    LastIndexOfCharFinds(text, '}', 17);
    assert text[11..18] == payload;
  }

  /**
   * Stage 2: when stage 1 does not apply, the result is exactly the text from
   * the first `{` to the last `}`, provided the latter comes after the former.
   */
  lemma CleanJsonBraceStage(text: string, first: nat, last: nat)
    requires !FencedStageApplies(text)
    requires first < last && FirstOpenBrace(text, first) && LastCloseBrace(text, last)
    ensures CleanJson(text) == text[first..last + 1]
  {
    assert BraceSpan(text) == Some(text[first..last + 1]);
    TrimTrimmed(text[first..last + 1]);
  }

  /** A fence-free text that already is `{ ... }` is returned unchanged. */
  lemma CleanJsonKeepsBareObject(text: string)
    requires NoMatch(text, Fence)
    requires |text| >= 2 && text[0] == '{' && text[|text| - 1] == '}'
    ensures CleanJson(text) == text
  {
    assert FencedBlock(text).None? by {
      assert IndexOf(text, Fence, 0).None?;
    }
    assert FirstOpenBrace(text, 0) && LastCloseBrace(text, |text| - 1);
    CleanJsonBraceStage(text, 0, |text| - 1);
    assert text[0..|text|] == text;
  }

  /** Stage 3: with no usable block and no `{ ... }` span, the fences are stripped and none is left. */
  lemma CleanJsonFallbackStage(text: string)
    requires !FencedStageApplies(text)
    requires forall i, j :: 0 <= i < j < |text| ==> !(text[i] == '{' && text[j] == '}')
    ensures CleanJson(text) == StripFences(text)
    ensures NoMatch(CleanJson(text), Fence)
  {
  }

  /** An empty fence on its own cleans to the empty string, the "Empty JSON after cleaning" path. */
  lemma CleanJsonLoneFenceIsEmpty()
    ensures CleanJson("```") == ""
  {
    assert IndexOf("```", Fence, 3).None?;
    assert IndexOfChar("```", '{', 0).None?;
    assert RemoveAll("```", FenceWithTag) == "```" by {
      assert !MatchAt("```", FenceWithTag, 0);
      assert RemoveAll("`", FenceWithTag) == "`";
      assert RemoveAll("``", FenceWithTag) == "``";
    }
    assert RemoveAll("```", Fence) == "";
  }

  /**
   * Removing every "```" from left to right leaves no "```": a backtick kept
   * by the scan is never followed by two more.
   */
  lemma {:induction false} RemoveFencesLeavesNone(s: string)
    ensures NoMatch(RemoveAll(s, Fence), Fence)
    decreases |s|
  {
    if |s| == 0 {
    } else if MatchAt(s, Fence, 0) {
      RemoveFencesLeavesNone(s[3..]);
    } else {
      var t := s[1..];
      var rt := RemoveAll(t, Fence);
      RemoveFencesLeavesNone(t);
      var r := RemoveAll(s, Fence);
      assert r == [s[0]] + rt;
      forall k: nat ensures !MatchAt(r, Fence, k) {
        if k > 0 && k + 3 <= |r| {
          assert r[k..k + 3] == rt[k - 1..k + 2];
          assert !MatchAt(rt, Fence, k - 1);
        } else if k == 0 && |r| >= 3 {
          FenceAt(r, 0);
          FenceAt(s, 0);
          assert r[0] == s[0] && r[1] == rt[0] && r[2] == rt[1];
          if s[0] == '`' {
            KeptBacktickNotFollowedByTwo(s);
          }
        }
      }
    }
  }

  /** A fence is three backticks in a row. */
  lemma FenceAt(x: string, k: nat)
    ensures MatchAt(x, Fence, k) <==> k + 3 <= |x| && x[k] == '`' && x[k + 1] == '`' && x[k + 2] == '`'
  {
    if k + 3 <= |x| && x[k] == '`' && x[k + 1] == '`' && x[k + 2] == '`' {
      assert x[k..k + 3] == Fence;
    }
  }

  /** A backtick that does not start a fence is not followed, after removal, by two backticks. */
  lemma KeptBacktickNotFollowedByTwo(s: string)
    requires |s| > 0 && s[0] == '`' && !MatchAt(s, Fence, 0)
    ensures var rt := RemoveAll(s[1..], Fence); |rt| < 2 || rt[0] != '`' || rt[1] != '`'
  {
    var t := s[1..];
    FenceAt(s, 0);
    if |s| < 3 {
    } else if s[1] != '`' {
      FenceAt(t, 0);
      assert RemoveAll(t, Fence) == [t[0]] + RemoveAll(t[1..], Fence);
    } else {
      var u := t[1..];
      FenceAt(t, 0);
      assert RemoveAll(t, Fence) == [t[0]] + RemoveAll(u, Fence);
      FenceAt(u, 0);
      assert RemoveAll(u, Fence) == [u[0]] + RemoveAll(u[1..], Fence);
    }
  }

  // ---------------------------------------------------------------------
  // extractResponseText (vertex.ts:47-51)
  // ---------------------------------------------------------------------

  /** One content part of a response; `text` is absent for non-text parts. */
  datatype Part = Part(text: Option<string>)
  datatype Content = Content(parts: Option<seq<Part>>)
  datatype ResponseCandidate = ResponseCandidate(content: Option<Content>)
  /** The `response` of `generateContent`, reduced to the path the text is read from. */
  datatype GenerateResponse = GenerateResponse(candidates: Option<seq<ResponseCandidate>>)

  /**
   * `response.candidates?.[0]?.content?.parts || []`: the parts at the end of
   * the path when every step of it is present, and otherwise none.
   */
  function FirstCandidateParts(response: GenerateResponse): (parts: seq<Part>)
    ensures response.candidates.Some? && |response.candidates.value| > 0
            && response.candidates.value[0].content.Some?
            && response.candidates.value[0].content.value.parts.Some? ==>
      parts == response.candidates.value[0].content.value.parts.value
    ensures parts != [] ==>
      && response.candidates.Some? && |response.candidates.value| > 0
      && response.candidates.value[0].content.Some?
      && response.candidates.value[0].content.value.parts == Some(parts)
  {
    match response.candidates
    case None => []
    case Some(cs) =>
      if |cs| == 0 then []
      else match cs[0].content
        case None => []
        case Some(content) =>
          match content.parts
          case None => []
          case Some(parts) => parts
  }

  /** `p.text || ""`: the part's text, empty when it has none. */
  function PartText(p: Part): (t: string)
    ensures p.text.Some? ==> t == p.text.value
    ensures t == "" <==> p.text.None? || p.text.value == ""
  {
    match p.text
    case None => ""
    case Some(t) => t
  }

  /** `parts.map(p => p.text || "").join("")`. */
  function JoinTexts(parts: seq<Part>): string
  {
    if |parts| == 0 then "" else PartText(parts[0]) + JoinTexts(parts[1..])
  }

  /** The joined text is empty exactly when every part's text is. */
  lemma {:induction false} JoinTextsEmpty(parts: seq<Part>)
    ensures JoinTexts(parts) == "" <==> forall i :: 0 <= i < |parts| ==> PartText(parts[i]) == ""
    decreases |parts|
  {
    if |parts| > 0 {
      JoinTextsEmpty(parts[1..]);
      assert forall i :: 1 <= i < |parts| ==> parts[i] == parts[1..][i - 1];
    }
  }

  /** `extractResponseText`: the joined part texts, trimmed. */
  function ExtractResponseText(response: GenerateResponse): (text: string)
    ensures text == Trim(JoinTexts(FirstCandidateParts(response)))
    ensures IsTrimmed(text)
    ensures FirstCandidateParts(response) == [] ==> text == ""
    ensures text == "" <==> AllWhitespace(JoinTexts(FirstCandidateParts(response)))
  {
    Trim(JoinTexts(FirstCandidateParts(response)))
  }

  /** Joining distributes over concatenation of the part lists. */
  lemma {:induction false} JoinTextsAppend(ps: seq<Part>, qs: seq<Part>)
    ensures JoinTexts(ps + qs) == JoinTexts(ps) + JoinTexts(qs)
    decreases |ps|
  {
    if |ps| == 0 {
      assert ps + qs == qs;
    } else {
      assert (ps + qs)[1..] == ps[1..] + qs;
      JoinTextsAppend(ps[1..], qs);
    }
  }

  /** The text of part `i` sits in the joined text after those of all earlier parts and before all later ones. */
  lemma JoinTextsInOrder(ps: seq<Part>, i: nat)
    requires i < |ps|
    ensures JoinTexts(ps) == JoinTexts(ps[..i]) + PartText(ps[i]) + JoinTexts(ps[i + 1..])
  {
    var tail := ps[i..];
    assert ps == ps[..i] + tail;
    JoinTextsAppend(ps[..i], tail);
    assert tail[0] == ps[i] && tail[1..] == ps[i + 1..];
  }

  // ---------------------------------------------------------------------
  // The evaluators' common ladder (vertex.ts:107-137, 177-205, 250-271)
  // ---------------------------------------------------------------------

  /** A thrown JavaScript error; `message` may be absent. */
  datatype JsError = JsError(message: Option<string>)

  /** What `await generativeModel.generateContent(prompt)` did. */
  datatype CallOutcome = Threw(error: JsError) | Returned(response: GenerateResponse)

  /** How far an evaluator got: no model, an error caught by its `catch`, or a parsed payload. */
  datatype Attempt<T> = NoModel | Failed(error: JsError) | Parsed(value: T)

  const NoTextMessage: string := "No text response from Vertex AI"
  const NoCandidatesTextMessage: string := "No candidates text from Vertex AI"
  const EmptyJsonMessage: string := "Empty JSON after cleaning"
  const ReadingContentError: string := "Cannot read properties of undefined (reading 'content')"
  const ReadingPartsError: string := "Cannot read properties of undefined (reading 'parts')"

  /**
   * The `TypeError` thrown while evaluating `response.candidates?.[0].content.parts`
   * for the "no text" log line: the optional chain stops only at an absent
   * `candidates`, so an empty list fails on `.content` and a first candidate
   * without content fails on `.parts`. Either way the response has no parts.
   */
  function PartsLogError(response: GenerateResponse): (e: Option<JsError>)
    ensures e.Some? ==> FirstCandidateParts(response) == []
    ensures e == Some(JsError(Some(ReadingContentError))) <==> response.candidates == Some([])
    ensures e == Some(JsError(Some(ReadingPartsError))) <==>
      response.candidates.Some? && |response.candidates.value| > 0 && response.candidates.value[0].content.None?
  {
    match response.candidates
    case None => None
    case Some(cs) =>
      if |cs| == 0 then Some(JsError(Some(ReadingContentError)))
      else if cs[0].content.None? then Some(JsError(Some(ReadingPartsError)))
      else None
  }

  /**
   * Call the model, extract the text, clean it and parse it. An empty text
   * throws `noTextMessage` (when `logsParts`, evaluating the log line before
   * the throw may throw a `TypeError` first), an empty cleaned text throws
   * "Empty JSON after cleaning", and a parse failure throws the parser's
   * error; each lands in the evaluator's `catch`.
   */
  function RunModel<T>(model: GenerativeModel?, call: CallOutcome, noTextMessage: string, logsParts: bool,
                       parse: string -> Result<T, JsError>): (a: Attempt<T>)
    ensures a.NoModel? <==> model == null
    ensures model != null && call.Threw? ==> a == Failed(call.error)
    ensures model != null && call.Returned? && ExtractResponseText(call.response) == "" ==>
      a == Failed(if logsParts && PartsLogError(call.response).Some? then PartsLogError(call.response).value
                  else JsError(Some(noTextMessage)))
    ensures a.Parsed? ==>
      && call.Returned?
      && ExtractResponseText(call.response) != ""
      && CleanJson(ExtractResponseText(call.response)) != ""
      && parse(CleanJson(ExtractResponseText(call.response))) == Success(a.value)
  {
    if model == null then NoModel
    else match call
      case Threw(e) => Failed(e)
      case Returned(response) =>
        var text := ExtractResponseText(response);
        if text == "" then
          if logsParts && PartsLogError(response).Some? then Failed(PartsLogError(response).value)
          else Failed(JsError(Some(noTextMessage)))
        else
          var cleanText := CleanJson(text);
          if cleanText == "" then Failed(JsError(Some(EmptyJsonMessage)))
          else match parse(cleanText)
            case Success(v) => Parsed(v)
            case Failure(e) => Failed(e)
  }

  /** The ladder reaches the parser with the cleaned text, and passes its verdict on unchanged. */
  lemma RunModelParses<T>(model: GenerativeModel?, call: CallOutcome, noTextMessage: string, logsParts: bool,
                          parse: string -> Result<T, JsError>, text: string)
    requires model != null && call.Returned? && ExtractResponseText(call.response) == text
    requires text != "" && CleanJson(text) != ""
    ensures parse(CleanJson(text)).Success? ==> RunModel(model, call, noTextMessage, logsParts, parse) == Parsed(parse(CleanJson(text)).value)
    ensures parse(CleanJson(text)).Failure? ==> RunModel(model, call, noTextMessage, logsParts, parse) == Failed(parse(CleanJson(text)).error)
  {
  }

  /** The cleaned text being empty is reported as "Empty JSON after cleaning". */
  lemma RunModelEmptyClean<T>(model: GenerativeModel?, call: CallOutcome, noTextMessage: string, logsParts: bool,
                              parse: string -> Result<T, JsError>)
    requires model != null && call.Returned? && ExtractResponseText(call.response) != ""
    requires CleanJson(ExtractResponseText(call.response)) == ""
    ensures RunModel(model, call, noTextMessage, logsParts, parse) == Failed(JsError(Some(EmptyJsonMessage)))
  {
  }

  // ---------------------------------------------------------------------
  // generateOldShopScore (vertex.ts:53-59, 68-139)
  // ---------------------------------------------------------------------

  /** `OldShopScoreResult`; `foundingYear` is absent where a literal omits it. */
  datatype ShopScore = ShopScore(score: int, reasoning: string, shortSummary: string,
                                 isShinise: bool, foundingYear: Option<string>)

  /** The facts about a shop an evaluator is given. */
  datatype ShopFacts = ShopFacts(name: string, address: Option<string>,
                                 reviews: Option<seq<string>>, types: Option<seq<string>>)

  const UnknownYear: string := "不明"

  /** The result when no model could be created. */
  const ConfigMissingScore: ShopScore :=
    ShopScore(0, "AI configuration missing", "AI未接続", false, Some(UnknownYear))

  /** `error.message || "Unknown"`. */
  function MessageOrUnknown(e: JsError): (m: string)
    ensures m != ""
    ensures e.message.Some? && e.message.value != "" ==> m == e.message.value
    ensures e.message.None? || e.message.value == "" ==> m == "Unknown"
  {
    match e.message
    case Some(m) => if m == "" then "Unknown" else m
    case None => "Unknown"
  }

  /** The result built in the `catch` block. */
  function ScoreError(e: JsError): (r: ShopScore)
    ensures IsScoreSentinel(r)
    ensures r.reasoning == "AIエラー: " + MessageOrUnknown(e) && r.reasoning != "AIエラー: "
    ensures r.shortSummary == "判定不能"
  {
    ShopScore(0, "AIエラー: " + MessageOrUnknown(e), "判定不能", false, Some(UnknownYear))
  }

  /** Every result the evaluator builds itself says: score 0, not a shinise, founding year unknown. */
  predicate IsScoreSentinel(r: ShopScore) {
    r.score == 0 && !r.isShinise && r.foundingYear == Some(UnknownYear)
  }

  /**
   * `generateOldShopScore`: the parsed payload as it is (the score is not
   * clamped), or a sentinel. A result with a non-zero score or the shinise
   * flag set always comes from the model.
   */
  function GenerateOldShopScore(model: GenerativeModel?, call: CallOutcome,
                                parse: string -> Result<ShopScore, JsError>): (r: ShopScore)
    ensures model == null ==> r == ConfigMissingScore
    ensures RunModel(model, call, NoTextMessage, true, parse).Parsed? ==> r == RunModel(model, call, NoTextMessage, true, parse).value
    ensures !RunModel(model, call, NoTextMessage, true, parse).Parsed? ==> IsScoreSentinel(r)
    ensures RunModel(model, call, NoTextMessage, true, parse).Failed? ==>
      r.reasoning == "AIエラー: " + MessageOrUnknown(RunModel(model, call, NoTextMessage, true, parse).error)
      && r.shortSummary == "判定不能"
    ensures r.score != 0 || r.isShinise ==> RunModel(model, call, NoTextMessage, true, parse).Parsed?
  {
    match RunModel(model, call, NoTextMessage, true, parse)
    case NoModel => ConfigMissingScore
    case Failed(e) => ScoreError(e)
    case Parsed(v) => v
  }

  /** Whatever score the model's payload holds, in or out of 0..100, is returned as it is. */
  lemma ScoreIsNotClamped(model: GenerativeModel?, call: CallOutcome,
                          parse: string -> Result<ShopScore, JsError>, v: ShopScore)
    requires model != null && call.Returned?
    requires ExtractResponseText(call.response) != ""
    requires CleanJson(ExtractResponseText(call.response)) != ""
    requires parse(CleanJson(ExtractResponseText(call.response))) == Success(v)
    ensures GenerateOldShopScore(model, call, parse).score == v.score
  {
    RunModelParses(model, call, NoTextMessage, true, parse, ExtractResponseText(call.response));
  }

  /** A response without text whose log line evaluates cleanly gives the "No text response" sentinel. */
  lemma ScoreWithoutText(model: GenerativeModel?, call: CallOutcome,
                         parse: string -> Result<ShopScore, JsError>)
    requires model != null && call.Returned? && ExtractResponseText(call.response) == ""
    requires PartsLogError(call.response).None?
    ensures GenerateOldShopScore(model, call, parse) ==
      ShopScore(0, "AIエラー: " + NoTextMessage, "判定不能", false, Some(UnknownYear))
  {
  }

  /**
   * An empty candidate list makes the log line throw before "No text
   * response" is reached: the sentinel reports the `TypeError` instead.
   */
  lemma ScoreWithEmptyCandidates(model: GenerativeModel?, call: CallOutcome,
                                 parse: string -> Result<ShopScore, JsError>)
    requires model != null && call.Returned? && call.response.candidates == Some([])
    ensures GenerateOldShopScore(model, call, parse) ==
      ShopScore(0, "AIエラー: " + ReadingContentError, "判定不能", false, Some(UnknownYear))
  {
    assert FirstCandidateParts(call.response) == [];
  }

  // ---------------------------------------------------------------------
  // generateShopGuide (vertex.ts:61-66, 141-206)
  // ---------------------------------------------------------------------

  /** `ShopGuideResult`. */
  datatype ShopGuide = ShopGuide(historyBackground: string, recommendedPoints: string,
                                 atmosphere: string, bestTimeToVisit: string)

  const GuideConfigMissing: ShopGuide := ShopGuide("AI接続エラー", "", "", "")

  /** `${error.message}`: an absent message is rendered as "undefined". */
  function MessageText(e: JsError): (m: string)
    ensures e.message.Some? ==> m == e.message.value
    ensures e.message.None? ==> m == "undefined"
  {
    match e.message
    case Some(m) => m
    case None => "undefined"
  }

  /** `generateShopGuide`: the parsed guide, or a guide whose only non-empty field reports the failure. */
  function GenerateShopGuide(model: GenerativeModel?, call: CallOutcome,
                             parse: string -> Result<ShopGuide, JsError>): (r: ShopGuide)
    ensures model == null ==> r == GuideConfigMissing
    ensures RunModel(model, call, NoTextMessage, true, parse).Parsed? ==> r == RunModel(model, call, NoTextMessage, true, parse).value
    ensures RunModel(model, call, NoTextMessage, true, parse).Failed? ==>
      r == ShopGuide("エラー: " + MessageText(RunModel(model, call, NoTextMessage, true, parse).error), "", "", "")
    ensures !RunModel(model, call, NoTextMessage, true, parse).Parsed? ==>
      r.recommendedPoints == "" && r.atmosphere == "" && r.bestTimeToVisit == "" && r.historyBackground != ""
  {
    match RunModel(model, call, NoTextMessage, true, parse)
    case NoModel => GuideConfigMissing
    case Failed(e) => ShopGuide("エラー: " + MessageText(e), "", "", "")
    case Parsed(v) => v
  }

  /** A first candidate without content makes the guide report the `TypeError` of the log line. */
  lemma GuideWithoutContent(model: GenerativeModel?, call: CallOutcome,
                            parse: string -> Result<ShopGuide, JsError>)
    requires model != null && call.Returned?
    requires call.response.candidates.Some? && |call.response.candidates.value| > 0
    requires call.response.candidates.value[0].content.None?
    ensures GenerateShopGuide(model, call, parse) == ShopGuide("エラー: " + ReadingPartsError, "", "", "")
  {
    assert FirstCandidateParts(call.response) == [];
  }

  // ---------------------------------------------------------------------
  // findShiniseCandidates (vertex.ts:208-272)
  // ---------------------------------------------------------------------

  /**
   * `findShiniseCandidates`: the `candidates` field of the parsed payload, in
   * order, or `[]` when there is no model, no text, no cleaned text, a
   * failure, or no such field. (The source returns `[]` directly for an empty
   * cleaned text instead of throwing; the result is the same.)
   * `parse` stands for `JSON.parse` followed by reading `.candidates`; an
   * absent or falsy field is `None`.
   */
  function FindShiniseCandidates(model: GenerativeModel?, call: CallOutcome,
                                 parse: string -> Result<Option<seq<string>>, JsError>): (r: seq<string>)
    ensures |r| > 0 ==> RunModel(model, call, NoCandidatesTextMessage, false, parse) == Parsed(Some(r))
    ensures RunModel(model, call, NoCandidatesTextMessage, false, parse) == Parsed(Some(r)) || r == []
    ensures (RunModel(model, call, NoCandidatesTextMessage, false, parse).Parsed?
             && RunModel(model, call, NoCandidatesTextMessage, false, parse).value.Some?) ==>
      r == RunModel(model, call, NoCandidatesTextMessage, false, parse).value.value
  {
    var attempt := RunModel(model, call, NoCandidatesTextMessage, false, parse);
    if attempt.Parsed? && attempt.value.Some? then attempt.value.value else []
  }

  /** Without a log line, the candidate search treats every text-less response alike: `[]`. */
  lemma CandidatesWithoutText(model: GenerativeModel?, call: CallOutcome,
                              parse: string -> Result<Option<seq<string>>, JsError>)
    requires model != null && call.Returned? && ExtractResponseText(call.response) == ""
    ensures RunModel(model, call, NoCandidatesTextMessage, false, parse) == Failed(JsError(Some(NoCandidatesTextMessage)))
    ensures FindShiniseCandidates(model, call, parse) == []
  {
  }
}
