/** `call_llama`: one request to the local Ollama service, its fallback to the
    `/api/generate` endpoint, and the decoding of the model's JSON answer. */
module Llama {
  import opened Wrappers
  import opened Text
  import opened Json

  const DefaultHost: string := "http://ollama:11434"
  const DefaultModel: string := "llama3"
  const DefaultTimeout: string := "60"

  /** A POST with a JSON body and a timeout in seconds. */
  datatype Request = Request(url: string, payload: Json, timeout: int)

  /** What `requests.post` gives back: the request failed (connection error,
      timeout), or a response with its status and its body decoded as JSON
      (`None` when the body is not JSON). */
  datatype Reply = PostFailed | Response(status: int, body: Option<Json>)

  /** Why `call_llama` raises. */
  datatype LlamaError =
    | BadTimeout        // `int(OLLAMA_TIMEOUT)` raises `ValueError`
    | Transport         // `requests.post` raises
    | HttpStatus(code: int)  // `raise_for_status`
    | BodyNotJson       // `response.json()` raises
    | BadShape          // the answer is not shaped as the code reads it
    | EmptyContent      // the content is blank
    | ContentNotJson    // `json.loads(content)` raises

  /** The service's surroundings: the environment variables, the network, and
      `json.loads` (`None` where it raises). */
  datatype Services = Services(env: map<string, string>, post: Request -> Reply, decode: string -> Option<Json>)

  /** `os.getenv(name, default)`. */
  function EnvGet(env: map<string, string>, name: string, default: string): string
  {
    if name in env then env[name] else default
  }

  /** The service base URL: `OLLAMA_HOST` without trailing slashes. */
  function Host(env: map<string, string>): (r: string)
    ensures r != [] ==> r[|r| - 1] != '/'
  {
    RStripChar(EnvGet(env, "OLLAMA_HOST", DefaultHost), '/')
  }

  /** `model or os.getenv("MATCH_MODEL_NAME") or os.getenv("OLLAMA_MODEL", "llama3")`. */
  function SelectModel(model: Option<string>, env: map<string, string>): string
  {
    if model.Some? && model.value != "" then model.value
    else if "MATCH_MODEL_NAME" in env && env["MATCH_MODEL_NAME"] != "" then env["MATCH_MODEL_NAME"]
    else EnvGet(env, "OLLAMA_MODEL", DefaultModel)
  }

  /** The model is the first non-empty one of the argument and `MATCH_MODEL_NAME`;
      failing both, `OLLAMA_MODEL` as it is set, even empty; failing that, `llama3`. */
  lemma ModelPrecedence(model: Option<string>, env: map<string, string>)
    ensures var r := SelectModel(model, env);
      (model.Some? && model.value != "" ==> r == model.value)
      && ((model.None? || model.value == "") && "MATCH_MODEL_NAME" in env && env["MATCH_MODEL_NAME"] != "" ==>
            r == env["MATCH_MODEL_NAME"])
      && ((model.None? || model.value == "") && ("MATCH_MODEL_NAME" !in env || env["MATCH_MODEL_NAME"] == "") ==>
            r == (if "OLLAMA_MODEL" in env then env["OLLAMA_MODEL"] else DefaultModel))
    ensures SelectModel(model, env) == "" ==> "OLLAMA_MODEL" in env && env["OLLAMA_MODEL"] == ""
  {
  }

  /** `timeout or int(os.getenv("OLLAMA_TIMEOUT", "60"))`: a non-zero argument,
      else the variable read as an integer (raising when `int()` refuses it), else
      60. */
  function RequestTimeout(timeout: Option<int>, env: map<string, string>): (r: Result<int, LlamaError>)
    ensures timeout.Some? && timeout.value != 0 ==> r == Ok(timeout.value)
    ensures (timeout.None? || timeout.value == 0) && "OLLAMA_TIMEOUT" !in env ==> r == Ok(60)
    ensures (timeout.None? || timeout.value == 0) && "OLLAMA_TIMEOUT" in env ==>
      (r.Ok? <==> ParseInt(env["OLLAMA_TIMEOUT"]).Some?)
      && (r.Ok? ==> ParseInt(env["OLLAMA_TIMEOUT"]) == Some(r.value))
      && (r.Err? ==> r.error == BadTimeout)
  {
    if timeout.Some? && timeout.value != 0 then Ok(timeout.value)
    else
      assert DefaultTimeout == "" + IntStr(60) + "";
      IntRoundTrip(60, "", "");
      match ParseInt(EnvGet(env, "OLLAMA_TIMEOUT", DefaultTimeout))
      case None => Err(BadTimeout)
      case Some(n) => Ok(n)
  }

  function Message(role: string, content: string): Json
  {
    JObj(map["role" := JStr(role), "content" := JStr(content)])
  }

  /** The body sent to `/api/chat`. */
  function ChatPayload(model: string, system: string, prompt: string, formatHint: string): (r: map<string, Json>)
    ensures r.Keys == {"model", "stream", "messages"} + (if formatHint != "" then {"format"} else {})
    ensures r["model"] == JStr(model) && r["stream"] == JBool(false)
    ensures r["messages"] == JArr([Message("system", system), Message("user", prompt)])
    ensures formatHint != "" ==> r["format"] == JStr(formatHint)
  {
    var base := map["model" := JStr(model), "stream" := JBool(false),
                    "messages" := JArr([Message("system", system), Message("user", prompt)])];
    if formatHint != "" then base["format" := JStr(formatHint)] else base
  }

  /** `_build_generate_prompt`: the system prompt, a blank line, the user prompt. */
  function GeneratePrompt(system: string, user: string): (r: string)
    ensures |r| == |system| + 2 + |user|
  {
    system + "\n\n" + user
  }

  /** The generate prompt can be cut back into its two prompts. */
  lemma GeneratePromptSplit(system: string, user: string)
    ensures var r := GeneratePrompt(system, user);
      r[..|system|] == system && r[|system|..|system| + 2] == "\n\n" && r[|system| + 2..] == user
  {
    var r := GeneratePrompt(system, user);
    assert r == system + ("\n\n" + user);
    assert r[|system|..] == "\n\n" + user;
  }

  /** The body sent to `/api/generate`. */
  function GeneratePayload(model: string, prompt: string): map<string, Json>
  {
    map["model" := JStr(model), "prompt" := JStr(prompt), "stream" := JBool(false)]
  }

  /** The text the answer carries, before stripping: `message.content` when the
      answer has a `message`, else `response`; both default to the empty text. */
  function RawContent(data: Json): Result<string, LlamaError>
  {
    match data
    case JObj(fields) =>
      if "message" in fields then
        match fields["message"]
        case JObj(message) =>
          (match Get(message, "content", JStr(""))
           case JStr(s) => Ok(s)
           case _ => Err(BadShape))
        case _ => Err(BadShape)
      else
        (match Get(fields, "response", JStr(""))
         case JStr(s) => Ok(s)
         case _ => Err(BadShape))
    case _ => Err(BadShape)
  }

  /** `_parse_json_response(data)`. */
  function ParseJsonResponse(data: Json, decode: string -> Option<Json>): (r: Result<Json, LlamaError>)
    ensures r.Ok? ==> RawContent(data).Ok? && decode(Strip(RawContent(data).value)) == Some(r.value)
  {
    match RawContent(data)
    case Err(e) => Err(e)
    case Ok(raw) =>
      var content := Strip(raw);
      if content == "" then Err(EmptyContent)
      else
        match decode(content)
        case None => Err(ContentNotJson)
        case Some(v) => Ok(v)
  }

  /** The answer is rejected as empty exactly when its content is white space
      only, and otherwise it is the decoding of the stripped content. */
  lemma ParseJsonResponseCases(data: Json, decode: string -> Option<Json>)
    requires RawContent(data).Ok?
    ensures var raw := RawContent(data).value;
      (ParseJsonResponse(data, decode) == Err(EmptyContent) <==> forall i :: 0 <= i < |raw| ==> IsSpace(raw[i]))
    ensures var raw := RawContent(data).value;
      (exists i :: 0 <= i < |raw| && !IsSpace(raw[i])) ==>
        ParseJsonResponse(data, decode) == (match decode(Strip(raw)) case None => Err(ContentNotJson) case Some(v) => Ok(v))
  {
    StripEmpty(RawContent(data).value);
  }

  /** A chat answer and a generate answer carrying the same text decode the same. */
  lemma ChatAndGenerateAgree(content: string, decode: string -> Option<Json>)
    ensures ParseJsonResponse(JObj(map["message" := JObj(map["content" := JStr(content)])]), decode)
         == ParseJsonResponse(JObj(map["response" := JStr(content)]), decode)
  {
    var chat := JObj(map["message" := JObj(map["content" := JStr(content)])]);
    var generate := JObj(map["response" := JStr(content)]);
    assert RawContent(chat) == Ok(content);
    assert RawContent(generate) == Ok(content);
  }

  /** `raise_for_status`: a client or server error status. */
  predicate RaisesForStatus(status: int)
  {
    400 <= status < 600
  }

  /** The reply of an endpoint, read as `call_llama` reads it after the 404 test. */
  function Answer(reply: Reply, decode: string -> Option<Json>): Result<Json, LlamaError>
  {
    match reply
    case PostFailed => Err(Transport)
    case Response(status, body) =>
      if RaisesForStatus(status) then Err(HttpStatus(status))
      else if body.None? then Err(BodyNotJson)
      else ParseJsonResponse(body.value, decode)
  }

  /** `_call_generate(host, model, prompt, timeout)`. */
  function CallGenerate(host: string, model: string, prompt: string, timeout: int, svc: Services): (r: Result<Json, LlamaError>)
  {
    Answer(svc.post(Request(host + "/api/generate", JObj(GeneratePayload(model, prompt)), timeout)), svc.decode)
  }

  /** The chat request `call_llama` sends. */
  function ChatRequest(prompt: string, system: string, model: Option<string>, formatHint: string, timeout: int, env: map<string, string>): Request
  {
    Request(Host(env) + "/api/chat", JObj(ChatPayload(SelectModel(model, env), system, prompt, formatHint)), timeout)
  }

  /** `call_llama(prompt, system_prompt, model=model, format_hint=formatHint, timeout=timeout)`. */
  function CallLlama(prompt: string, system: string, model: Option<string>, formatHint: string, timeout: Option<int>, svc: Services)
    : (r: Result<Json, LlamaError>)
  {
    match RequestTimeout(timeout, svc.env)
    case Err(e) => Err(e)
    case Ok(seconds) =>
      var reply := svc.post(ChatRequest(prompt, system, model, formatHint, seconds, svc.env));
      if reply.Response? && reply.status == 404 then
        CallGenerate(Host(svc.env), SelectModel(model, svc.env), GeneratePrompt(system, prompt), seconds, svc)
      else Answer(reply, svc.decode)
  }

  /** A 404 from the chat endpoint, and only that, sends the same model the two
      prompts joined by a blank line at the generate endpoint of the same host;
      every other answer is read as it is. A result is always the decoding of
      the content of some answer. */
  lemma CallLlamaRoutes(prompt: string, system: string, model: Option<string>, formatHint: string, timeout: Option<int>, svc: Services)
    requires RequestTimeout(timeout, svc.env).Ok?
    ensures var seconds := RequestTimeout(timeout, svc.env).value;
      var chat := svc.post(ChatRequest(prompt, system, model, formatHint, seconds, svc.env));
      var generate := Request(Host(svc.env) + "/api/generate",
        JObj(map["model" := JStr(SelectModel(model, svc.env)), "prompt" := JStr(system + "\n\n" + prompt), "stream" := JBool(false)]),
        seconds);
      (chat.Response? && chat.status == 404 ==> CallLlama(prompt, system, model, formatHint, timeout, svc) == Answer(svc.post(generate), svc.decode))
      && (!(chat.Response? && chat.status == 404) ==> CallLlama(prompt, system, model, formatHint, timeout, svc) == Answer(chat, svc.decode))
    ensures var seconds := RequestTimeout(timeout, svc.env).value;
      var chat := svc.post(ChatRequest(prompt, system, model, formatHint, seconds, svc.env));
      chat.Response? && RaisesForStatus(chat.status) && chat.status != 404 ==>
        CallLlama(prompt, system, model, formatHint, timeout, svc) == Err(HttpStatus(chat.status))
  {
  }

  /** Whatever `call_llama` returns is what `json.loads` made of a non-blank text. */
  lemma CallLlamaDecoded(prompt: string, system: string, model: Option<string>, formatHint: string, timeout: Option<int>, svc: Services)
    requires CallLlama(prompt, system, model, formatHint, timeout, svc).Ok?
    ensures exists content :: content != "" && !IsSpace(content[0]) && svc.decode(content) == Some(CallLlama(prompt, system, model, formatHint, timeout, svc).value)
  {
    var seconds := RequestTimeout(timeout, svc.env).value;
    var chat := svc.post(ChatRequest(prompt, system, model, formatHint, seconds, svc.env));
    if chat.Response? && chat.status == 404 {
      AnswerDecoded(svc.post(Request(Host(svc.env) + "/api/generate",
        JObj(GeneratePayload(SelectModel(model, svc.env), GeneratePrompt(system, prompt))), seconds)), svc.decode);
    } else {
      AnswerDecoded(chat, svc.decode);
    }
  }

  lemma AnswerDecoded(reply: Reply, decode: string -> Option<Json>)
    requires Answer(reply, decode).Ok?
    ensures exists content :: content != "" && !IsSpace(content[0]) && decode(content) == Some(Answer(reply, decode).value)
  {
    var content := Strip(RawContent(reply.body.value).value);
    assert content[0] == LStrip(RawContent(reply.body.value).value)[0];
  }
}
