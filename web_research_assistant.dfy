/**
 The web research assistant's pure parts: the Gemini REST client's URL,
 request payload and reply handling, and the summarizer's input shaping
 (truncation, prompt, stripping of the reply).

 The HTTP POST is a parameter (`Transport`); the browser that fetches the page
 text is not part of this model, the page text arrives as an argument.
 */
module WebResearchAssistant {
  import opened Outcomes
  import opened Strings

  // ---------------------------------------------------------------- client

  const ApiBase := "https://generativelanguage.googleapis.com/v1beta/models/"
  const MethodAndKey := ":generateContent?key="
  const Temperature: real := 0.7

  /**
   The endpoint: the base, the model name, ":generateContent?key=", and the
   key. Both the model and the key can be read back from it when the model
   name holds no ':'.
   */
  function ApiUrl(model: string, apiKey: string): (url: string)
    ensures Unwrap(ApiBase, MethodAndKey + apiKey, url) == Some(model)
    ensures ':' !in model ==> ParseApiUrl(url) == Some((model, apiKey))
  {
    var url := ApiBase + model + MethodAndKey + apiKey;
    UnwrapWrap(ApiBase, model, MethodAndKey + apiKey);
    assert ApiBase + model + (MethodAndKey + apiKey) == url;
    if ':' !in model then ApiUrlRoundTrip(model, apiKey); url else url
  }

  /** The model name and the key of an endpoint URL, or None when it is not one. */
  function ParseApiUrl(url: string): (parsed: Option<(string, string)>)
    ensures parsed.Some? ==> ':' !in parsed.value.0 && ApiBase + parsed.value.0 + MethodAndKey + parsed.value.1 == url
  {
    if |ApiBase| <= |url| && url[..|ApiBase|] == ApiBase then
      var rest := url[|ApiBase|..];
      match IndexOf(rest, ':')
      case None => None
      case Some(i) =>
        var tail := rest[i..];
        if |MethodAndKey| <= |tail| && tail[..|MethodAndKey|] == MethodAndKey then
          var model, key := rest[..i], tail[|MethodAndKey|..];
          assert url == ApiBase + rest;
          assert rest == model + (MethodAndKey + key);
          assert url == ApiBase + model + MethodAndKey + key;
          Some((model, key))
        else None
    else None
  }

  lemma ApiUrlRoundTrip(model: string, apiKey: string)
    requires ':' !in model
    ensures ParseApiUrl(ApiBase + model + MethodAndKey + apiKey) == Some((model, apiKey))
  {
    var url := ApiBase + model + MethodAndKey + apiKey;
    var rest := url[|ApiBase|..];
    assert url[..|ApiBase|] == ApiBase;
    assert rest == model + [':'] + (MethodAndKey[1..] + apiKey);
    IndexOfAfter(model, ':', MethodAndKey[1..] + apiKey);
    assert rest[..|model|] == model;
    assert rest[|model|..] == MethodAndKey + apiKey;
    assert (MethodAndKey + apiKey)[..|MethodAndKey|] == MethodAndKey;
    assert (MethodAndKey + apiKey)[|MethodAndKey|..] == apiKey;
  }

  /** `GeminiClient`: a key and a model; the endpoint is derived from both. */
  datatype GeminiClient = GeminiClient(apiKey: string, model: string)

  /** `{"Content-Type": "application/json"}`. */
  const Headers: map<string, string> := map["Content-Type" := "application/json"]

  datatype Part = Part(text: string)
  datatype Content = Content(parts: seq<Part>)
  datatype GenerationConfig = GenerationConfig(maxOutputTokens: int, temperature: real)
  /** The JSON body of a generateContent request. */
  datatype Payload = Payload(contents: seq<Content>, generationConfig: GenerationConfig)

  /** The prompt of a payload that carries exactly one content entry with exactly one text part. */
  function PromptOf(payload: Payload): (prompt: Option<string>)
    ensures prompt.Some? <==> |payload.contents| == 1 && |payload.contents[0].parts| == 1
  {
    if |payload.contents| == 1 && |payload.contents[0].parts| == 1
    then Some(payload.contents[0].parts[0].text)
    else None
  }

  /**
   The request body: the prompt as the single text part of the single content
   entry, `maxTokens` as `maxOutputTokens`, and temperature 0.7.
   */
  function BuildPayload(prompt: string, maxTokens: int): (payload: Payload)
    ensures PromptOf(payload) == Some(prompt)
    ensures payload.generationConfig.maxOutputTokens == maxTokens
    ensures payload.generationConfig.temperature == Temperature
  {
    Payload([Content([Part(prompt)])], GenerationConfig(maxTokens, Temperature))
  }

  datatype Candidate = Candidate(content: Content)
  /** What the POST yields: the status, the body text, and the `candidates` of the parsed JSON if present. */
  datatype HttpResponse = HttpResponse(status: int, body: string, candidates: Option<seq<Candidate>>)

  /** `session.post(url, json=payload, headers=headers)`; the connection itself may fail. */
  type Transport = (string, Payload, map<string, string>) -> Outcome<HttpResponse>

  /**
   Reading a reply: any status but 200 raises the API error and yields no text;
   otherwise the text is `data['candidates'][0]['content']['parts'][0]['text']`,
   with the lookups raising as they would.
   */
  function ReadReply(resp: HttpResponse): (text: Outcome<string>)
    ensures resp.status != 200 ==> text == Raised(ApiError(resp.status, resp.body))
    ensures resp.status == 200 && resp.candidates.None? ==> text == Raised(KeyError("candidates"))
    ensures resp.status == 200 && resp.candidates.Some? ==>
      text == if |resp.candidates.value| == 0 || |resp.candidates.value[0].content.parts| == 0
              then Raised(IndexError)
              else Ok(resp.candidates.value[0].content.parts[0].text)
    ensures text.Ok? ==>
      && resp.status == 200
      && resp.candidates.Some? && |resp.candidates.value| > 0
      && |resp.candidates.value[0].content.parts| > 0
      && text.value == resp.candidates.value[0].content.parts[0].text
  {
    if resp.status != 200 then Raised(ApiError(resp.status, resp.body))
    else match resp.candidates
      case None => Raised(KeyError("candidates"))
      case Some(cs) =>
        if |cs| == 0 then Raised(IndexError)
        else if |cs[0].content.parts| == 0 then Raised(IndexError)
        else Ok(cs[0].content.parts[0].text)
  }

  /**
   `generate_async`: one POST of the built payload to the client's endpoint.
   A failed connection propagates; a status other than 200 raises the API
   error; text comes back only from a 200 reply, and it is the first part of
   the first candidate.
   */
  function Generate(client: GeminiClient, post: Transport, prompt: string, maxTokens: int): (text: Outcome<string>)
    ensures
      var sent := post(ApiUrl(client.model, client.apiKey), BuildPayload(prompt, maxTokens), Headers);
      && (sent.Raised? ==> text == Raised(sent.error))
      && (sent.Ok? && sent.value.status != 200 ==> text == Raised(ApiError(sent.value.status, sent.value.body)))
      && (sent.Ok? && sent.value.status == 200 && sent.value.candidates.None? ==> text == Raised(KeyError("candidates")))
      && (sent.Ok? && sent.value.status == 200 && sent.value.candidates.Some? ==>
            text == if |sent.value.candidates.value| == 0 || |sent.value.candidates.value[0].content.parts| == 0
                    then Raised(IndexError)
                    else Ok(sent.value.candidates.value[0].content.parts[0].text))
      && (text.Ok? ==>
            && sent.Ok? && sent.value.status == 200
            && sent.value.candidates.Some? && |sent.value.candidates.value| > 0
            && |sent.value.candidates.value[0].content.parts| > 0
            && text.value == sent.value.candidates.value[0].content.parts[0].text)
  {
    match post(ApiUrl(client.model, client.apiKey), BuildPayload(prompt, maxTokens), Headers)
    case Raised(e) => Raised(e)
    case Ok(resp) => ReadReply(resp)
  }

  // ---------------------------------------------------------------- summarizer

  const MaxInputLength := 3000
  const TruncationMarker := "\n\n[Truncated]"
  const SummaryPrefix := "Summarize the following content concisely:\n\n"
  const SummarySuffix := "\n\nSummary:"

  /**
   The text put into the prompt: unchanged up to 3000 characters; beyond
   that, its first 3000 characters and the truncation marker, 3013 in all.
   */
  function ShapeInput(text: string): (shaped: string)
    ensures |text| <= MaxInputLength ==> shaped == text
    ensures |text| > MaxInputLength ==>
      && |shaped| == MaxInputLength + |TruncationMarker| == 3013
      && shaped[..MaxInputLength] == text[..MaxInputLength]
      && shaped[MaxInputLength..] == TruncationMarker
  {
    if |text| > MaxInputLength then Take(text, MaxInputLength) + TruncationMarker else text
  }

  /** The summarizer's prompt; unwrapping its fixed frame gives back the shaped text exactly. */
  function SummaryPrompt(text: string): (prompt: string)
    ensures Unwrap(SummaryPrefix, SummarySuffix, prompt) == Some(ShapeInput(text))
  {
    UnwrapWrap(SummaryPrefix, ShapeInput(text), SummarySuffix);
    SummaryPrefix + ShapeInput(text) + SummarySuffix
  }

  /**
   The characters Python's `str.strip()` removes: those for which
   `str.isspace()` holds.
   */
  predicate IsSpace(c: char)
    ensures c == ' ' || c == '\t' || c == '\n' || c == '\r' ==> IsSpace(c)
    ensures IsSpace(c) ==> !('0' <= c <= '9' || 'A' <= c <= 'Z' || 'a' <= c <= 'z' || c == '_')
  {
    var k := c as int;
    || 0x09 <= k <= 0x0D || 0x1C <= k <= 0x20
    || k == 0x85 || k == 0xA0 || k == 0x1680
    || 0x2000 <= k <= 0x200A
    || k == 0x2028 || k == 0x2029 || k == 0x202F || k == 0x205F || k == 0x3000
  }

  /** `s.lstrip()`: the suffix left after dropping leading whitespace. */
  function TrimStart(s: string): (r: string)
    ensures |r| <= |s| && r == s[|s| - |r|..]
    ensures forall i :: 0 <= i < |s| - |r| ==> IsSpace(s[i])
    ensures r == [] || !IsSpace(r[0])
    decreases |s|
  {
    if s != [] && IsSpace(s[0]) then TrimStart(s[1..]) else s
  }

  /** `s.rstrip()`: the prefix left after dropping trailing whitespace. */
  function TrimEnd(s: string): (r: string)
    ensures |r| <= |s| && r == s[..|r|]
    ensures forall i :: |r| <= i < |s| ==> IsSpace(s[i])
    ensures r == [] || !IsSpace(r[|r| - 1])
    decreases |s|
  {
    if s != [] && IsSpace(s[|s| - 1]) then TrimEnd(s[..|s| - 1]) else s
  }

  /**
   `s.strip()`: the stretch of `s` between its leading and its trailing
   whitespace. It neither starts nor ends with whitespace, and everything cut
   away is whitespace.
   */
  function Strip(s: string): (r: string)
    ensures r == [] || (!IsSpace(r[0]) && !IsSpace(r[|r| - 1]))
    ensures exists lead ::
      && 0 <= lead <= |s| - |r|
      && s[lead..][..|r|] == r
      && (forall i :: 0 <= i < lead ==> IsSpace(s[i]))
      && (forall i :: lead + |r| <= i < |s| ==> IsSpace(s[i]))
  {
    StripCut(s);
    TrimEnd(TrimStart(s))
  }

  /** The witness for `Strip`: it starts where `TrimStart` left off. */
  lemma StripCut(s: string)
    ensures
      var t := TrimStart(s);
      var r := TrimEnd(t);
      var lead := |s| - |t|;
      && 0 <= lead <= |s| - |r|
      && s[lead..][..|r|] == r
      && (forall i :: 0 <= i < lead ==> IsSpace(s[i]))
      && (forall i :: lead + |r| <= i < |s| ==> IsSpace(s[i]))
      && (r == [] || (!IsSpace(r[0]) && !IsSpace(r[|r| - 1])))
  {
    var t := TrimStart(s);
    var r := TrimEnd(t);
    var lead := |s| - |t|;
    assert s[lead..] == t;
    forall i | lead + |r| <= i < |s|
      ensures IsSpace(s[i])
    {
      assert s[i] == t[i - lead];
    }
    if r != [] {
      assert r[0] == t[0];
    }
  }

  /** `GeminiSummarizer.summarize_text`: shape, frame, generate with `maxTokens`, strip the reply. */
  function Summarize(client: GeminiClient, post: Transport, text: string, maxTokens: int): (summary: Outcome<string>)
    ensures Generate(client, post, SummaryPrompt(text), maxTokens).Raised? ==>
      summary == Raised(Generate(client, post, SummaryPrompt(text), maxTokens).error)
    ensures Generate(client, post, SummaryPrompt(text), maxTokens).Ok? ==>
      summary == Ok(Strip(Generate(client, post, SummaryPrompt(text), maxTokens).value))
    ensures summary.Ok? ==> summary.value == [] || (!IsSpace(summary.value[0]) && !IsSpace(summary.value[|summary.value| - 1]))
  {
    match Generate(client, post, SummaryPrompt(text), maxTokens)
    case Raised(e) => Raised(e)
    case Ok(reply) => Ok(Strip(reply))
  }

  /**
   The one request a summary makes: it goes to the client's endpoint, its
   payload carries `maxTokens` and a prompt whose frame holds the shaped text,
   and two transports that answer that request alike yield the same summary.
   */
  lemma SummarizeRequest(client: GeminiClient, p1: Transport, p2: Transport, text: string, maxTokens: int)
    requires
      var payload := BuildPayload(SummaryPrompt(text), maxTokens);
      p1(ApiUrl(client.model, client.apiKey), payload, Headers) == p2(ApiUrl(client.model, client.apiKey), payload, Headers)
    ensures Summarize(client, p1, text, maxTokens) == Summarize(client, p2, text, maxTokens)
    ensures BuildPayload(SummaryPrompt(text), maxTokens).generationConfig.maxOutputTokens == maxTokens
    ensures Unwrap(SummaryPrefix, SummarySuffix, PromptOf(BuildPayload(SummaryPrompt(text), maxTokens)).value) == Some(ShapeInput(text))
  {
  }

  /** A non-200 reply gives no summary, only the API error carrying its status and body. */
  lemma SummarizeRejectsNon200(client: GeminiClient, post: Transport, text: string, maxTokens: int)
    requires
      var sent := post(ApiUrl(client.model, client.apiKey), BuildPayload(SummaryPrompt(text), maxTokens), Headers);
      sent.Ok? && sent.value.status != 200
    ensures
      var resp := post(ApiUrl(client.model, client.apiKey), BuildPayload(SummaryPrompt(text), maxTokens), Headers).value;
      Summarize(client, post, text, maxTokens) == Raised(ApiError(resp.status, resp.body))
  {
  }
}
