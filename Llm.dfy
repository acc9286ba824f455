/** The backend-independent request side of the engine: compatibility detection,
    the request builder for the five server dialects, extraction of one event's
    text, and the TLS policy. */
module Llm {
  import opened Wrappers
  import opened Text
  import opened PyValues
  import opened JsonValues

  /** str(e) of a raised exception: never empty. */
  type ErrorText = s: string | s != [] witness "error"

  // ---------------------------------------------------------------- compatibility

  const OpenAIDomain := "api.openai.com"

  /** is_openai_compatible(endpoint, compatibility_flag) */
  predicate IsOpenAICompatible(endpoint: Value, flag: Value) {
    AsBool(flag) || Contains(Lower(PyStr(endpoint)), OpenAIDomain)
  }

  /** Some slice of the endpoint, starting at i, spells the OpenAI domain in any letter case. */
  ghost predicate SpellsDomainAt(endpoint: string, i: int) {
    0 <= i && i + |OpenAIDomain| <= |endpoint| && Lower(endpoint[i..i + |OpenAIDomain|]) == OpenAIDomain
  }

  /** The domain test is a case-insensitive substring search: compatible exactly when the
      flag is true or the endpoint spells the OpenAI domain somewhere, in any letter case. */
  lemma {:induction false} OpenAICompatibleIff(endpoint: string, flag: Value)
    ensures IsOpenAICompatible(S(endpoint), flag) <==> AsBool(flag) || exists i :: SpellsDomainAt(endpoint, i)
  {
    var n := |OpenAIDomain|;
    forall i | 0 <= i && i + n <= |endpoint|
      ensures OccursAt(Lower(endpoint), OpenAIDomain, i) <==> SpellsDomainAt(endpoint, i)
    {
      LowerSlice(endpoint, i, i + n);
    }
  }

  /** A substring without slashes occurs in the lower-cased text exactly when it occurs
      there once the trailing slashes are gone. */
  lemma {:induction false} ContainsIgnoresTrailingSlashes(s: string, t: string)
    requires t != [] && forall k :: 0 <= k < |t| ==> t[k] != '/'
    ensures Contains(Lower(RStripSlash(s)), t) == Contains(Lower(s), t)
  {
    var r := RStripSlash(s);
    assert r == s[..|r|];
    LowerSlice(s, 0, |r|);
    var ls, lr := Lower(s), Lower(r);
    assert lr == ls[..|r|];
    forall j | |r| <= j < |s| ensures ls[j] == '/' {
      assert s[|r|..][j - |r|] == '/';
    }
    forall i | OccursAt(lr, t, i) ensures OccursAt(ls, t, i) {
      assert lr[i..i + |t|] == ls[i..i + |t|];
    }
    forall i | OccursAt(ls, t, i) ensures OccursAt(lr, t, i) {
      assert ls[i + |t| - 1] == ls[i..i + |t|][|t| - 1] == t[|t| - 1] != '/';
      assert lr[i..i + |t|] == ls[i..i + |t|];
    }
  }

  /** Trailing slashes on the endpoint never change whether it is OpenAI-compatible. */
  lemma CompatibleIgnoresTrailingSlashes(endpoint: string, flag: Value)
    ensures IsOpenAICompatible(S(RStripSlash(endpoint)), flag) == IsOpenAICompatible(S(endpoint), flag)
  {
    ContainsIgnoresTrailingSlashes(endpoint, OpenAIDomain);
  }

  // ---------------------------------------------------------------- request

  const DefaultMaxTokens := 70
  const Temperature := 1
  const TopP: real := 0.9
  const Seed := 10

  datatype ChatMessage = ChatMessage(role: string, content: string)

  /** A chat body carries `messages`, a completions body carries `prompt`: never both. */
  datatype Payload = Messages(messages: seq<ChatMessage>) | Prompt(prompt: string)

  /** The JSON body; `seed` and `model` are keys that may be absent. */
  datatype Body = Body(
    payload: Payload,
    maxTokens: int,
    temperature: int,
    topP: real,
    stream: bool,
    seed: Option<int>,
    model: Option<string>)

  datatype Request = Request(url: string, verb: string, headers: map<string, string>, body: Body)

  /** int(max_tokens), falling back to 70 where int() raises. */
  function MaxTokens(v: Value): int {
    PyInt(v).GetOr(DefaultMaxTokens)
  }

  /** api_type normalises to "chat" on a case-insensitive match, else to "completions". */
  predicate IsChat(apiType: Value) {
    Lower(PyStr(apiType)) == "chat"
  }

  /** The OpenWebUI test, on the endpoint once its trailing slashes are gone. */
  predicate IsOpenWebUI(endpoint: string, flag: Value) {
    AsBool(flag) || Contains(Lower(endpoint), "open-webui") || Contains(Lower(endpoint), "openwebui")
  }

  function ApiPath(openWebUI: bool): string {
    if openWebUI then "/api" else "/v1"
  }

  function Route(chat: bool): string {
    if chat then "/chat/completions" else "/completions"
  }

  /** Content-Type always; Authorization exactly when there is a key. */
  function Headers(apiKey: string): (h: map<string, string>)
    ensures h.Keys <= {"Content-Type", "Authorization"}
    ensures "Content-Type" in h && h["Content-Type"] == "application/json"
    ensures "Authorization" in h <==> apiKey != ""
    ensures "Authorization" in h ==> h["Authorization"] == "Bearer " + apiKey
  {
    var headers := map["Content-Type" := "application/json"];
    if apiKey != "" then headers["Authorization" := "Bearer " + apiKey] else headers
  }

  /** The completions prompt, with a non-empty system prompt wrapped in front of it. */
  function WrapSystemPrompt(systemPrompt: string, prompt: string): string {
    if systemPrompt != "" then "SYSTEM PROMPT\n" + systemPrompt + "\nEND SYSTEM PROMPT\n" + prompt else prompt
  }

  function ChatMessages(systemPrompt: string, prompt: string): seq<ChatMessage> {
    (if systemPrompt != "" then [ChatMessage("system", systemPrompt)] else []) + [ChatMessage("user", prompt)]
  }

  /** build_api_request(prompt, endpoint, api_key, api_type, model, is_openwebui,
      openai_compatible, system_prompt, max_tokens). The url is the raw concatenation
      of the endpoint and the path; the checks and clean-up that urllib's Request
      constructor applies to it are not modelled. */
  function BuildApiRequest(
    prompt: string, endpoint: Value, apiKey: Value, apiType: Value, model: Value,
    isOpenWebUI: Value, openaiCompatible: Value, systemPrompt: string, maxTokens: Value): (r: Request)
    ensures r.verb == "POST"
    ensures r.body.stream && r.body.temperature == 1 && r.body.topP == 0.9
    ensures PyInt(maxTokens).Some? ==> r.body.maxTokens == PyInt(maxTokens).value
    ensures PyInt(maxTokens).None? ==> r.body.maxTokens == 70
    ensures r.headers == Headers(PyStr(apiKey))
    ensures r.body.model.Some? <==> PyStr(model) != ""
    ensures r.body.model.Some? ==> r.body.model.value == PyStr(model)
    ensures r.body.payload.Messages? <==> IsChat(apiType)
    ensures r.body.payload.Messages? ==>
      var m := r.body.payload.messages;
      && |m| == (if systemPrompt != "" then 2 else 1)
      && m[|m| - 1] == ChatMessage("user", prompt)
      && (systemPrompt != "" ==> m[0] == ChatMessage("system", systemPrompt))
    ensures r.body.payload.Prompt? ==> r.body.payload.prompt == WrapSystemPrompt(systemPrompt, prompt)
    ensures r.body.seed.Some? <==> !IsChat(apiType) && !IsOpenAICompatible(endpoint, openaiCompatible)
    ensures r.body.seed.Some? ==> r.body.seed.value == 10
    ensures var base := RStripSlash(PyStr(endpoint));
      r.url == base + ApiPath(IsOpenWebUI(base, isOpenWebUI)) + Route(IsChat(apiType))
  {
    var base := RStripSlash(PyStr(endpoint));
    var key := PyStr(apiKey);
    var name := PyStr(model);
    var chat := IsChat(apiType);
    var url := base + ApiPath(IsOpenWebUI(base, isOpenWebUI)) + Route(chat);
    var payload := if chat then Messages(ChatMessages(systemPrompt, prompt)) else Prompt(WrapSystemPrompt(systemPrompt, prompt));
    var seed := if !chat && !IsOpenAICompatible(S(base), openaiCompatible) then Some(Seed) else None;
    CompatibleIgnoresTrailingSlashes(PyStr(endpoint), openaiCompatible);
    var body := Body(payload, MaxTokens(maxTokens), Temperature, TopP, true, seed, if name != "" then Some(name) else None);
    Request(url, "POST", Headers(key), body)
  }

  /** A trailing slash on the endpoint changes nothing in the request. */
  lemma BuildIgnoresTrailingSlash(
    prompt: string, endpoint: string, apiKey: Value, apiType: Value, model: Value,
    isOpenWebUI: Value, openaiCompatible: Value, systemPrompt: string, maxTokens: Value)
    ensures BuildApiRequest(prompt, S(endpoint + "/"), apiKey, apiType, model, isOpenWebUI, openaiCompatible, systemPrompt, maxTokens)
         == BuildApiRequest(prompt, S(endpoint), apiKey, apiType, model, isOpenWebUI, openaiCompatible, systemPrompt, maxTokens)
  {
    RStripSlashAppend(endpoint);
  }

  predicate EndsWith(s: string, suffix: string) {
    |suffix| <= |s| && s[|s| - |suffix|..] == suffix
  }

  /** Whether text ending in a known tail ends in a given suffix depends on the tail alone,
      as long as the suffix is no longer than the tail. */
  lemma EndsWithTail(base: string, tail: string, suffix: string)
    ensures |suffix| <= |tail| ==> (EndsWith(base + tail, suffix) <==> tail[|tail| - |suffix|..] == suffix)
    ensures EndsWith(base + tail, suffix) && |suffix| > |tail| ==> suffix[|suffix| - |tail|..] == tail
  {
    var u := base + tail;
    if |suffix| <= |tail| {
      assert u[|u| - |suffix|..] == tail[|tail| - |suffix|..];
    } else if EndsWith(u, suffix) {
      assert u[|u| - |tail|..] == tail;
      assert suffix[|suffix| - |tail|..] == u[|u| - |tail|..];
    }
  }

  /** The URL ends in "/chat/completions" exactly for the chat route. */
  lemma {:induction false} UrlNamesChat(base: string, openWebUI: bool, chat: bool)
    ensures EndsWith(base + ApiPath(openWebUI) + Route(chat), "/chat/completions") <==> chat
  {
    var tail := ApiPath(openWebUI) + Route(chat);
    assert base + ApiPath(openWebUI) + Route(chat) == base + tail;
    EndsWithTail(base, tail, "/chat/completions");
    if !chat && openWebUI {
      assert tail[0] == '/';
    } else if !chat {
      assert tail[0] == '/' && tail[1] == 'v';
    }
  }

  /** The URL ends in "/api" followed by the route exactly for the OpenWebUI prefix. */
  lemma {:induction false} UrlNamesOpenWebUI(base: string, openWebUI: bool, chat: bool)
    ensures EndsWith(base + ApiPath(openWebUI) + Route(chat), "/api" + Route(chat)) <==> openWebUI
  {
    var tail := ApiPath(openWebUI) + Route(chat);
    assert base + ApiPath(openWebUI) + Route(chat) == base + tail;
    EndsWithTail(base, tail, "/api" + Route(chat));
    if !openWebUI {
      assert tail[1] == 'v';
    }
  }

  /** Read back from a built request: the URL names the chat route and the OpenWebUI
      prefix exactly when the request builder chose them. */
  lemma UrlIdentifiesRoute(
    prompt: string, endpoint: Value, apiKey: Value, apiType: Value, model: Value,
    isOpenWebUI: Value, openaiCompatible: Value, systemPrompt: string, maxTokens: Value)
    ensures var r := BuildApiRequest(prompt, endpoint, apiKey, apiType, model, isOpenWebUI, openaiCompatible, systemPrompt, maxTokens);
      && (EndsWith(r.url, "/chat/completions") <==> IsChat(apiType))
      && (EndsWith(r.url, "/api" + Route(IsChat(apiType))) <==> IsOpenWebUI(RStripSlash(PyStr(endpoint)), isOpenWebUI))
  {
    var base := RStripSlash(PyStr(endpoint));
    UrlNamesChat(base, IsOpenWebUI(base, isOpenWebUI), IsChat(apiType));
    UrlNamesOpenWebUI(base, IsOpenWebUI(base, isOpenWebUI), IsChat(apiType));
  }

  /** The token budget falls back to 70 for text that int() rejects, and for None. */
  lemma MaxTokensFallback()
    ensures MaxTokens(S("many")) == 70
    ensures MaxTokens(Null) == 70
  {
    assert Trimmed("many");
    ParseIntTrimmed("many");
    assert !IsDigit("many"[0]);
  }

  /** A number behind the separator U+001C is not read: int() raises, so the budget is 70. */
  lemma MaxTokensSeparatorFallback()
    ensures MaxTokens(S("\U{1C}5")) == 70
  {
    IntKeepsSeparators();
  }

  const LocalOllama := "http://localhost:11434"

  lemma LocalOllamaLacksI()
    ensures 'i' !in Lower(LocalOllama)
  {
  }

  /** The default local endpoint does not name the OpenAI domain. */
  lemma LocalOllamaNotOpenAI()
    ensures !IsOpenAICompatible(S(LocalOllama), B(false))
  {
    LocalOllamaLacksI();
    NotContainsMissingChar(Lower(LocalOllama), OpenAIDomain, 2);
  }

  /** The default local endpoint does not name OpenWebUI. */
  lemma LocalOllamaNotOpenWebUI()
    ensures !IsOpenWebUI(LocalOllama, B(false))
  {
    LocalOllamaLacksI();
    NotContainsMissingChar(Lower(LocalOllama), "open-webui", 6);
    NotContainsMissingChar(Lower(LocalOllama), "openwebui", 5);
  }

  /** A local Ollama server in completions mode: the /v1 route, a seed, no key, and the
      default token budget for a non-numeric setting. */
  lemma OllamaExample()
    ensures var r := BuildApiRequest("Hi", S(LocalOllama + "/"), S(""), S("completions"), S(""),
                                     B(false), B(false), "", S("many"));
      && r.url == LocalOllama + "/v1/completions"
      && "Authorization" !in r.headers
      && r.body.seed == Some(10) && r.body.maxTokens == 70 && r.body.model == None
      && r.body.payload == Prompt("Hi")
  {
    var base := RStripSlash(PyStr(S(LocalOllama + "/")));
    RStripSlashAppend(LocalOllama);
    assert RStripSlash(LocalOllama) == LocalOllama;
    assert base == LocalOllama;
    assert ApiPath(false) + Route(false) == "/v1/completions";
    assert base + ApiPath(false) + Route(false) == LocalOllama + "/v1/completions";
    LocalOllamaNotOpenAI();
    LocalOllamaNotOpenWebUI();
    CompatibleIgnoresTrailingSlashes(LocalOllama + "/", B(false));
    assert !IsChat(S("completions"));
    MaxTokensFallback();
  }

  // ---------------------------------------------------------------- extraction

  datatype Extracted = Extracted(content: Json, finishReason: Json)

  /** `"choices" in chunk` */
  function HasChoices(chunk: Json): Result<bool, ErrorText> {
    match chunk
    case JObj(fields) => Ok("choices" in fields)
    case JArr(items) => Ok(JStr("choices") in items)
    case JStr(s) => Ok(Contains(s, "choices"))
    case _ => Err("argument of type '" + JsonTypeName(chunk) + "' is not iterable")
  }

  /** `container[key]` for a str key. */
  function Subscript(container: Json, key: string): Result<Json, ErrorText> {
    match container
    case JObj(fields) => if key in fields then Ok(fields[key]) else Err("'" + key + "'")
    case JArr(_) => Err("list indices " + "must be integers or slices, not str")
    case JStr(_) => Err("string indices " + "must be integers, not 'str'")
    case _ => Err("'" + JsonTypeName(container) + "' object is not subscriptable")
  }

  /** `len(x)` */
  function PyLen(x: Json): Result<nat, ErrorText> {
    match x
    case JObj(fields) => Ok(|fields|)
    case JArr(items) => Ok(|items|)
    case JStr(s) => Ok(|s|)
    case _ => Err("object of type '" + JsonTypeName(x) + "' has no len()")
  }

  /** `x[0]`; a JSON object has only str keys, so 0 is never one of them. */
  function FirstItem(x: Json): Result<Json, ErrorText> {
    match x
    case JArr(items) => if items != [] then Ok(items[0]) else Err("list index out of range")
    case JStr(s) => if s != [] then Ok(JStr([s[0]])) else Err("string index out of range")
    case JObj(_) => Err("0")
    case _ => Err("'" + JsonTypeName(x) + "' object is not subscriptable")
  }

  /** `x.get(key, default)`: only a dict has a get method. */
  function GetOr(x: Json, key: string, default: Json): Result<Json, ErrorText> {
    match x
    case JObj(fields) => Ok(if key in fields then fields[key] else default)
    case _ => Err("'" + JsonTypeName(x) + "' object has no attribute 'get'")
  }

  const NoContent := Extracted(JStr(""), JNull)

  /** extract_content(chunk, api_type): the text and finish_reason of one decoded event,
      or the message of the exception Python raises on a chunk of the wrong shape. */
  function Extract(chunk: Json, apiType: string): (r: Result<Extracted, ErrorText>)
    ensures chunk.JObj? && "choices" !in chunk.fields ==> r == Ok(NoContent)
    ensures chunk.JObj? && "choices" in chunk.fields && PyLen(chunk.fields["choices"]) == Ok(0) ==> r == Ok(NoContent)
    ensures r.Ok? && r != Ok(NoContent) ==> chunk.JObj?
  {
    var has :- HasChoices(chunk);
    if !has then Ok(NoContent)
    else
      var choices :- Subscript(chunk, "choices");
      var n :- PyLen(choices);
      if n == 0 then Ok(NoContent)
      else
        var first :- FirstItem(choices);
        if apiType == "chat" then
          var delta :- GetOr(first, "delta", JObj(map[]));
          var content :- GetOr(delta, "content", JStr(""));
          var finish :- GetOr(first, "finish_reason", JNull);
          Ok(Extracted(content, finish))
        else
          var content :- GetOr(first, "text", JStr(""));
          var finish :- GetOr(first, "finish_reason", JNull);
          Ok(Extracted(content, finish))
  }

  /** One completions-style event: {"choices": [{"text": text, "finish_reason": finish}]}. */
  function CompletionEvent(text: Json, finish: Json): Json {
    JObj(map["choices" := JArr([JObj(map["text" := text, "finish_reason" := finish])])])
  }

  /** One chat-style event: {"choices": [{"delta": {"content": text}, "finish_reason": finish}]}. */
  function ChatEvent(text: Json, finish: Json): Json {
    JObj(map["choices" := JArr([JObj(map["delta" := JObj(map["content" := text]), "finish_reason" := finish])])])
  }

  /** A completions event hands back exactly the text and finish_reason it was built from. */
  lemma ExtractCompletionEvent(text: Json, finish: Json, apiType: string)
    requires apiType != "chat"
    ensures Extract(CompletionEvent(text, finish), apiType) == Ok(Extracted(text, finish))
  {
  }

  /** A chat event hands back exactly the delta content and finish_reason it was built from. */
  lemma ExtractChatEvent(text: Json, finish: Json)
    ensures Extract(ChatEvent(text, finish), "chat") == Ok(Extracted(text, finish))
  {
  }

  /** The value of a key in a first choice, or the default `.get` falls back to. */
  function Field(f: map<string, Json>, key: string, default: Json): Json {
    if key in f then f[key] else default
  }

  /** On the completions path, any event whose choices list starts with a dict yields
      that dict's "text" (default "") and "finish_reason" (default None), whatever other
      keys or choices the event carries; a first choice that is not a dict raises. */
  lemma ExtractCompletionChoice(m: map<string, Json>, choices: seq<Json>, apiType: string)
    requires "choices" in m && m["choices"] == JArr(choices) && choices != [] && apiType != "chat"
    ensures choices[0].JObj? ==>
      Extract(JObj(m), apiType)
      == Ok(Extracted(Field(choices[0].fields, "text", JStr("")), Field(choices[0].fields, "finish_reason", JNull)))
    ensures !choices[0].JObj? ==> Extract(JObj(m), apiType).Err?
  {
  }

  /** On the chat path, any event whose choices list starts with a dict yields the
      "content" of its "delta" dict (a missing delta counts as an empty dict, missing
      content as "") and its "finish_reason" (default None); a delta or a first choice
      that is not a dict raises. */
  lemma ExtractChatChoice(m: map<string, Json>, choices: seq<Json>)
    requires "choices" in m && m["choices"] == JArr(choices) && choices != []
    ensures choices[0].JObj? ==>
      var f := choices[0].fields;
      var delta := Field(f, "delta", JObj(map[]));
      && (delta.JObj? ==>
            Extract(JObj(m), "chat")
            == Ok(Extracted(Field(delta.fields, "content", JStr("")), Field(f, "finish_reason", JNull))))
      && (!delta.JObj? ==> Extract(JObj(m), "chat").Err?)
    ensures !choices[0].JObj? ==> Extract(JObj(m), "chat").Err?
  {
  }

  /** Missing links on the chat path default to empty content and no finish_reason. */
  lemma ExtractChatDefaults()
    ensures Extract(JObj(map["choices" := JArr([JObj(map["delta" := JObj(map[])])])]), "chat") == Ok(NoContent)
    ensures Extract(JObj(map["choices" := JArr([JObj(map["finish_reason" := JNull])])]), "chat") == Ok(NoContent)
    ensures Extract(JObj(map[]), "completions") == Ok(NoContent)
  {
  }

  /** The api_type comparison here is case-sensitive, unlike the request builder's:
      "Chat" reads a chat event as a completions event and finds no text in it. */
  lemma ExtractIsCaseSensitive(text: Json, finish: Json)
    ensures Extract(ChatEvent(text, finish), "Chat") == Ok(Extracted(JStr(""), finish))
  {
  }

  // ---------------------------------------------------------------- TLS

  datatype CertMode = CertNone | CertRequired

  /** The two settings of an SSL context the core touches. */
  datatype TlsPolicy = TlsPolicy(checkHostname: bool, verifyMode: CertMode)

  const Strict := TlsPolicy(true, CertRequired)
  const Permissive := TlsPolicy(false, CertNone)

  /** make_ssl_context(disable_verification) */
  function MakeTlsPolicy(disableVerification: Value): (p: TlsPolicy)
    ensures p == Strict || p == Permissive
    ensures p.checkHostname <==> p.verifyMode == CertRequired
    ensures p == Permissive <==> AsBool(disableVerification)
  {
    if AsBool(disableVerification) then Permissive else Strict
  }
}
