/** The test agent's client of the vision service (src/core/azure_ai_client.py): it posts a
    prompt and a screenshot to the chat-completions endpoint, counts its requests, and reads
    the answer either as the JSON object the reply contains or, failing that, from keywords
    of its text. The HTTP service is a script of replies, one per post; the JSON decoder is
    a parameter; the clock gives the time of each request. */
module AiClient {
  import opened Wrappers
  import opened Text
  import opened JsonValues
  import opened CoreSettings

  /** The endpoint with every trailing '/' removed, then the deployment's path. */
  function ApiUrl(endpoint: string, deployment: string): string
  {
    RStrip(endpoint, '/') + "/openai/deployments/" + deployment + "/chat/completions"
  }

  /** `n` slashes. */
  function Slashes(n: nat): string
  {
    seq(n, _ => '/')
  }

  /** Trailing slashes on the endpoint make no difference to the URL. */
  lemma {:induction false} ApiUrlIgnoresTrailingSlashes(endpoint: string, deployment: string, n: nat)
    ensures ApiUrl(endpoint + Slashes(n), deployment) == ApiUrl(endpoint, deployment)
  {
    if n > 0 {
      var e := endpoint + Slashes(n);
      assert e[|e| - 1] == '/' && e[..|e| - 1] == endpoint + Slashes(n - 1);
      assert RStrip(e, '/') == RStrip(endpoint + Slashes(n - 1), '/');
      ApiUrlIgnoresTrailingSlashes(endpoint, deployment, n - 1);
    } else {
      assert endpoint + Slashes(n) == endpoint;
    }
  }

  /** One element of the message content. */
  datatype Part = TextPart(text: string) | ImagePart(url: string)

  /** The message content of a request: the prompt, then the image when there is one. */
  function MessageContent(prompt: string, image: string): (parts: seq<Part>)
    ensures |parts| == (if image != "" then 2 else 1)
    ensures parts[0] == TextPart(prompt)
    ensures image != "" ==> parts[1] == ImagePart("data:image/png;base64," + image)
  {
    [TextPart(prompt)] + (if image != "" then [ImagePart("data:image/png;base64," + image)] else [])
  }

  /** The JSON body of a request: one user message, at most 1000 tokens, temperature 0.1. */
  datatype Payload = Payload(content: seq<Part>, maxTokens: int, temperature: real, apiVersion: string)

  /** A POST made to the service, with the key sent in its headers. */
  datatype Post = Post(url: string, apiKey: string, payload: Payload)

  /** What the service answers to a post: an HTTP reply, or no connection at all. */
  datatype HttpReply = HttpReply(status: int, text: string, body: Dict) | Unreachable(reason: string)

  /** The state of the client's HTTP session. */
  datatype SessionState = NoSession | Open | Closed

  /** The failures of a request and the AIError wrappers the client raises around them. */
  datatype AIError =
    | RequestFailed(status: int, text: string)
    | UnexpectedFormat(body: Dict)
    | MalformedReply(body: Dict)
    | ConnectionError(reason: string)
    | SessionMissing
    | SessionClosed
    | ContentNotText(content: Json)
    | ConnectFailed(cause: AIError)
    | AnalysisFailed(cause: AIError)

  /** The reply the service gives to the post with the given number (from 0). */
  function Reply(service: seq<HttpReply>, n: nat): HttpReply
  {
    if n < |service| then service[n] else Unreachable("no reply")
  }

  /** Python's `len` of a JSON value; None where `len` raises. */
  function Length(v: Json): Option<nat>
  {
    match v
    case JStr(s) => Some(|s|)
    case JArr(items) => Some(|items|)
    case JObj(fields) => Some(|fields|)
    case _ => None
  }

  /** `result['choices'][0]['message']['content']` for a non-empty `choices`. */
  function FirstContent(body: Dict, choices: Json): Result<Json, AIError>
  {
    if choices.JArr? && |choices.items| > 0 && choices.items[0].JObj?
       && "message" in choices.items[0].fields && choices.items[0].fields["message"].JObj?
       && "content" in choices.items[0].fields["message"].fields
    then Ok(choices.items[0].fields["message"].fields["content"])
    else Err(MalformedReply(body))
  }

  /** The content `_make_request` takes from a reply. */
  function ReplyContent(reply: HttpReply): (r: Result<Json, AIError>)
    ensures reply.Unreachable? ==> r == Err(ConnectionError(reply.reason))
    ensures reply.HttpReply? && reply.status != 200 ==> r == Err(RequestFailed(reply.status, reply.text))
    ensures reply.HttpReply? && reply.status == 200
            && ("choices" !in reply.body || Length(reply.body["choices"]) == Some(0))
            ==> r == Err(UnexpectedFormat(reply.body))
    ensures r.Ok? ==> reply.HttpReply? && reply.status == 200 && "choices" in reply.body
                      && reply.body["choices"].JArr? && |reply.body["choices"].items| > 0
  {
    match reply
    case Unreachable(reason) => Err(ConnectionError(reason))
    case HttpReply(status, text, body) =>
      if status != 200 then Err(RequestFailed(status, text))
      else if "choices" !in body then Err(UnexpectedFormat(body))
      else
        match Length(body["choices"])
        case None => Err(MalformedReply(body))
        case Some(n) => if n == 0 then Err(UnexpectedFormat(body)) else FirstContent(body, body["choices"])
  }

  /** The span `_parse_ai_response` decodes, as a start and an end index: from the first '{'
      to the last '}' inclusive. There is none when a brace is missing, and none when every
      '}' precedes every '{' (the slice is then empty, and no decoder accepts ""). */
  function BraceSpan(content: string): (r: Option<(nat, nat)>)
    ensures r.None? <==>
              '{' !in content || '}' !in content
              || forall i, j :: 0 <= i < |content| && 0 <= j < |content| && content[i] == '{' && content[j] == '}'
                                ==> j < i
    ensures r.Some? ==>
              r.value.0 < r.value.1 <= |content|
              && content[r.value.0] == '{' && '{' !in content[..r.value.0]
              && content[r.value.1 - 1] == '}' && '}' !in content[r.value.1..]
  {
    var start := FindChar(content, '{');
    var last := RFindChar(content, '}');
    if start.None? || last.None? then None
    else if last.value < start.value then
      forall i, j | 0 <= i < |content| && 0 <= j < |content| && content[i] == '{' && content[j] == '}'
        ensures j < i
      {
      }
      None
    else Some((start.value, last.value + 1))
  }

  /** The answer to "is an action needed" that the keywords of a lower-cased text give: yes
      when it says "yes" or "true", else no when it says "no" or "false". */
  function ActionNeeded(l: string): Option<bool>
  {
    if Contains(l, "yes") || Contains(l, "true") then Some(true)
    else if Contains(l, "no") || Contains(l, "false") then Some(false)
    else None
  }

  /** A lower-cased text that reports an error. */
  predicate ReportsError(l: string)
  {
    Contains(l, "error") || Contains(l, "fail")
  }

  /** A lower-cased text that reports completion. */
  predicate ReportsCompletion(l: string)
  {
    Contains(l, "complete") || Contains(l, "success")
  }

  /** The element a lower-cased text names, a button before a menu before a dialog. */
  function ElementNamed(l: string): Option<string>
  {
    if Contains(l, "button") then Some("button")
    else if Contains(l, "menu") then Some("menu")
    else if Contains(l, "dialog") then Some("dialog")
    else None
  }

  /** `_parse_text_response`: the content and a confidence of 0.5, then the facts that
      case-insensitive keywords of the text suggest, each under its key only when the text
      suggests it. */
  function ParseTextResponse(content: string): (r: Dict)
  {
    var l := Lower(content);
    var base := map["content" := JStr(content), "confidence" := JReal(0.5)];
    var withAction := if ActionNeeded(l).Some? then base["action_needed" := JBool(ActionNeeded(l).value)] else base;
    var withError :=
      if ReportsError(l) then withAction["error_detected" := JBool(true)]["error_message" := JStr(content)]
      else withAction;
    var withCompleted := if ReportsCompletion(l) then withError["completed" := JBool(true)] else withError;
    if ElementNamed(l).Some? then withCompleted["ui_element_type" := JStr(ElementNamed(l).value)]
    else withCompleted
  }

  /** The keys of the text reading: the content and the confidence always, each other key
      exactly when the text suggests its fact. */
  lemma TextReadingKeys(content: string)
    ensures var r, l := ParseTextResponse(content), Lower(content);
            && r.Keys <= {"content", "confidence", "action_needed", "error_detected", "error_message",
                          "completed", "ui_element_type"}
            && "content" in r && "confidence" in r
            && ("action_needed" in r <==> ActionNeeded(l).Some?)
            && ("error_detected" in r <==> ReportsError(l))
            && ("error_message" in r <==> ReportsError(l))
            && ("completed" in r <==> ReportsCompletion(l))
            && ("ui_element_type" in r <==> ElementNamed(l).Some?)
  {
  }

  /** The values of the text reading: the content itself, a confidence of 0.5, and the fact
      each keyword suggests. */
  lemma TextReadingValues(content: string)
    ensures var r, l := ParseTextResponse(content), Lower(content);
            && "content" in r && r["content"] == JStr(content)
            && "confidence" in r && r["confidence"] == JReal(0.5)
            && (ActionNeeded(l).Some? ==> "action_needed" in r && r["action_needed"] == JBool(ActionNeeded(l).value))
            && (ReportsError(l) ==> "error_detected" in r && r["error_detected"] == JBool(true)
                                    && "error_message" in r && r["error_message"] == JStr(content))
            && (ReportsCompletion(l) ==> "completed" in r && r["completed"] == JBool(true))
            && (ElementNamed(l).Some? ==> "ui_element_type" in r
                                          && r["ui_element_type"] == JStr(ElementNamed(l).value))
  {
  }

  /** An affirmative word wins over a negative one: "yes, no errors" asks for an action. */
  lemma AffirmativeWins(l: string)
    requires Contains(l, "yes") && Contains(l, "no")
    ensures ActionNeeded(l) == Some(true)
  {
  }

  /** Two texts with the same letters up to case are read alike, but for the text kept. */
  lemma TextReadingIgnoresCase(a: string, b: string)
    requires Lower(a) == Lower(b)
    ensures ParseTextResponse(a).Keys == ParseTextResponse(b).Keys
    ensures forall k :: k in ParseTextResponse(a) && k != "content" && k != "error_message" ==>
              ParseTextResponse(a)[k] == ParseTextResponse(b)[k]
  {
    var ra, rb := ParseTextResponse(a), ParseTextResponse(b);
    TextReadingKeys(a);
    TextReadingKeys(b);
    TextReadingValues(a);
    TextReadingValues(b);
    var keys := {"content", "confidence", "action_needed", "error_detected", "error_message",
                 "completed", "ui_element_type"};
    assert ra.Keys <= keys && rb.Keys <= keys;
    forall k | k in keys ensures k in ra <==> k in rb {
    }
    forall k | k in ra && k != "content" && k != "error_message" ensures ra[k] == rb[k] {
      assert k in keys;
    }
  }

  /** `_parse_ai_response`: the object decoded from the brace span when the decoder accepts
      it, else the reading of the text. */
  function ParseAiResponse(content: string, decode: string -> Option<Dict>): (r: Dict)
    ensures var span := BraceSpan(content);
            (span.Some? && decode(content[span.value.0..span.value.1]).Some? ==>
               r == decode(content[span.value.0..span.value.1]).value)
            && (span.None? || decode(content[span.value.0..span.value.1]).None? ==>
                  r == ParseTextResponse(content))
  {
    match BraceSpan(content)
    case None => ParseTextResponse(content)
    case Some((start, end)) =>
      match decode(content[start..end])
      case Some(parsed) => parsed
      case None => ParseTextResponse(content)
  }

  /** A text without braces is always read from its keywords. */
  lemma NoBracesMeansText(content: string, decode: string -> Option<Dict>)
    requires '{' !in content
    ensures ParseAiResponse(content, decode) == ParseTextResponse(content)
  {
  }

  /** What `analyze_screen` makes of the content of a request: a text content is parsed;
      every failure is raised again as a failure to analyze the screen. */
  function Analysis(content: Result<Json, AIError>, decode: string -> Option<Dict>): (r: Result<Dict, AIError>)
    ensures content.Err? ==> r == Err(AnalysisFailed(content.error))
    ensures content.Ok? && content.value.JStr? ==> r == Ok(ParseAiResponse(content.value.s, decode))
    ensures content.Ok? && !content.value.JStr? ==> r == Err(AnalysisFailed(ContentNotText(content.value)))
  {
    match content
    case Err(e) => Err(AnalysisFailed(e))
    case Ok(JStr(s)) => Ok(ParseAiResponse(s, decode))
    case Ok(other) => Err(AnalysisFailed(ContentNotText(other)))
  }

  /** The message `_test_connection` sends. */
  const TestMessage := "Test connection - respond with 'OK'"

  /** The opening sentence of the prompt `get_recovery_suggestion` sends. */
  function RecoveryPrompt(errorContext: string): string
  {
    "An error occurred during test execution: " + errorContext
  }

  /** The opening sentence of the prompt `verify_expected_state` sends. */
  function VerificationPrompt(expectedState: string): string
  {
    "Please verify if the application is in the expected state: " + expectedState
  }

  /** `get_api_stats` */
  datatype ApiStats = ApiStats(totalRequests: nat, lastRequestTime: Option<string>, endpoint: string)

  class AzureAIClient {
    const config: Config
    const apiUrl: string
    /** The replies of the service, in the order of the posts. */
    const service: seq<HttpReply>
    var session: SessionState
    var requestCount: nat
    var lastRequestTime: Option<string>
    /** Every post made, in order. */
    var posts: seq<Post>

    /** Every post was counted as a request. */
    ghost predicate Valid()
      reads this
    {
      |posts| <= requestCount
    }

    constructor (config: Config, service: seq<HttpReply>)
      ensures Valid() && this.config == config && this.service == service
      ensures apiUrl == ApiUrl(config.azureEndpoint, config.azureDeploymentName)
      ensures session == NoSession && requestCount == 0 && lastRequestTime == None && posts == []
    {
      this.config := config;
      this.service := service;
      apiUrl := ApiUrl(config.azureEndpoint, config.azureDeploymentName);
      session := NoSession;
      requestCount := 0;
      lastRequestTime := None;
      posts := [];
    }

    /** `_make_request`: counted and timed before anything can fail; posted only through an
        open session, with the prompt and, when given, the image; the reply's content is
        returned. */
    method MakeRequest(prompt: string, image: string, now: string) returns (r: Result<Json, AIError>)
      requires Valid()
      modifies this`requestCount, this`lastRequestTime, this`posts
      ensures Valid()
      ensures requestCount == old(requestCount) + 1 && lastRequestTime == Some(now)
      ensures session == NoSession ==> r == Err(SessionMissing) && posts == old(posts)
      ensures session == Closed ==> r == Err(SessionClosed) && posts == old(posts)
      ensures session == Open ==>
                posts == old(posts) + [Post(apiUrl, config.azureApiKey,
                                            Payload(MessageContent(prompt, image), 1000, 0.1, config.azureApiVersion))]
                && r == ReplyContent(Reply(service, |old(posts)|))
    {
      requestCount := requestCount + 1;
      lastRequestTime := Some(now);
      var content := [TextPart(prompt)];
      if image != "" {
        content := content + [ImagePart("data:image/png;base64," + image)];
      }
      assert content == MessageContent(prompt, image);
      var payload := Payload(content, 1000, 0.1, config.azureApiVersion);
      if session == NoSession {
        return Err(SessionMissing);
      }
      if session == Closed {
        return Err(SessionClosed);
      }
      var reply := Reply(service, |posts|);
      posts := posts + [Post(apiUrl, config.azureApiKey, payload)];
      r := ReplyContent(reply);
    }

    /** `initialize`: open a session, then test the connection with one request; its
        failure is raised as a failure to connect. The answer's content is lower-cased to
        look for "ok", so content that is not text fails too; any text is accepted. */
    method Initialize(now: string) returns (r: Result<(), AIError>)
      requires Valid()
      modifies this`session, this`requestCount, this`lastRequestTime, this`posts
      ensures Valid() && session == Open
      ensures requestCount == old(requestCount) + 1 && lastRequestTime == Some(now)
      ensures posts == old(posts) + [Post(apiUrl, config.azureApiKey,
                                          Payload([TextPart(TestMessage)], 1000, 0.1, config.azureApiVersion))]
      ensures var c := ReplyContent(Reply(service, |old(posts)|));
              (c.Ok? ==> (r.Ok? <==> c.value.JStr?))
              && (c.Ok? && !c.value.JStr? ==> r == Err(ConnectFailed(ContentNotText(c.value))))
              && (c.Err? ==> r == Err(ConnectFailed(c.error)))
    {
      session := Open;
      assert MessageContent(TestMessage, "") == [TextPart(TestMessage)];
      var response := MakeRequest(TestMessage, "", now);
      if response.Err? {
        return Err(ConnectFailed(response.error));
      }
      if !response.value.JStr? {
        return Err(ConnectFailed(ContentNotText(response.value)));
      }
      return Ok(());
    }

    /** `cleanup`: an open session is closed. */
    method Cleanup()
      modifies this`session
      ensures session == if old(session) == NoSession then NoSession else Closed
    {
      if session != NoSession {
        session := Closed;
      }
    }

    /** `analyze_screen`: one request with the prompt and the encoded screenshot, whose
        content is parsed; any failure is raised as a failure to analyze the screen. */
    method AnalyzeScreen(image: string, prompt: string, decode: string -> Option<Dict>, now: string)
      returns (r: Result<Dict, AIError>)
      requires Valid()
      modifies this`requestCount, this`lastRequestTime, this`posts
      ensures Valid()
      ensures requestCount == old(requestCount) + 1 && lastRequestTime == Some(now)
      ensures session != Open ==> posts == old(posts) && r.Err? && r.error.AnalysisFailed?
      ensures session == Open ==>
                |posts| == |old(posts)| + 1 && posts[..|old(posts)|] == old(posts)
                && posts[|old(posts)|].payload.content == MessageContent(prompt, image)
                && r == Analysis(ReplyContent(Reply(service, |old(posts)|)), decode)
    {
      var response := MakeRequest(prompt, image, now);
      r := Analysis(response, decode);
    }

    /** `get_recovery_suggestion`: a screen analysis with the recovery prompt. */
    method GetRecoverySuggestion(errorContext: string, image: string, decode: string -> Option<Dict>, now: string)
      returns (r: Result<Dict, AIError>)
      requires Valid()
      modifies this`requestCount, this`lastRequestTime, this`posts
      ensures Valid()
      ensures requestCount == old(requestCount) + 1
      ensures session == Open ==>
                |posts| == |old(posts)| + 1
                && posts[|old(posts)|].payload.content == MessageContent(RecoveryPrompt(errorContext), image)
                && r == Analysis(ReplyContent(Reply(service, |old(posts)|)), decode)
      ensures session != Open ==> r.Err?
    {
      r := AnalyzeScreen(image, RecoveryPrompt(errorContext), decode, now);
    }

    /** `verify_expected_state`: a screen analysis with the verification prompt. */
    method VerifyExpectedState(expectedState: string, image: string, decode: string -> Option<Dict>, now: string)
      returns (r: Result<Dict, AIError>)
      requires Valid()
      modifies this`requestCount, this`lastRequestTime, this`posts
      ensures Valid()
      ensures requestCount == old(requestCount) + 1
      ensures session == Open ==>
                |posts| == |old(posts)| + 1
                && posts[|old(posts)|].payload.content == MessageContent(VerificationPrompt(expectedState), image)
                && r == Analysis(ReplyContent(Reply(service, |old(posts)|)), decode)
      ensures session != Open ==> r.Err?
    {
      r := AnalyzeScreen(image, VerificationPrompt(expectedState), decode, now);
    }

    /** `get_api_stats` */
    function GetApiStats(): (s: ApiStats)
      reads this
      ensures s.totalRequests == requestCount && s.lastRequestTime == lastRequestTime && s.endpoint == apiUrl
    {
      ApiStats(requestCount, lastRequestTime, apiUrl)
    }
  }
}
