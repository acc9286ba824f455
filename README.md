# LocalWriter's LLM core, modelled in Dafny

LocalWriter is a LibreOffice extension that sends selected text to a language-model
server and writes the answer back into the document. Its core is in two files.

- `pythonpath/llm.py` holds the server-independent logic:
  - `as_bool` turns a loosely typed setting into a boolean;
  - `is_openai_compatible` decides whether an endpoint is OpenAI-compatible;
  - `build_api_request` builds the streaming request for Ollama, LM Studio,
    text-generation-webui, OpenAI and OpenWebUI;
  - `extract_content` reads one server-sent event;
  - `make_ssl_context` chooses how certificates are checked;
  - `stream_response` is the loop that reads the event stream line by line and hands
    each text chunk to the host.
- `main.py` holds the rules of the extension's entry point:
  - which backend preset the stored settings resemble (`_detect_backend`);
  - what the settings dialog reads back (`_read_dialog_config`);
  - how settings are written to `localwriter.json` (`_save_settings` over `set_config`);
  - the token budget of an edit request (`trigger`).

The modules are:

- `Wrappers`: `Option` and `Result`.
- `Text`: the Python string built-ins the core relies on. These are `str.strip`,
  `str.lower`, `in` on strings, `rstrip("/")`, and `int()` on text.
- `PyValues`: a setting's value (`None`, bool, int, str or another object), with
  `as_bool` and `int()` on it.
- `JsonValues`: decoded JSON and Python truthiness.
- `Llm`: `is_openai_compatible`, `build_api_request`, `extract_content` and
  `make_ssl_context`, as functions.
- `Stream`: `stream_response`. The loop is a method over a `Host` object that records
  each `append_callback` and `on_idle` call. The loop is proved against `Trace`, a
  function of the classified lines.
- `Settings`: the `main.py` rules. The settings file is a `ConfigStore` object whose
  `SetConfig` and `SaveSettings` methods update it in place.

Two points where the code does less than its docstrings suggest; the model follows the code:

- `extract_content` is not total. It tests `len(choices) > 0`, so any `choices` value of
  length zero (an empty list, but also "" or an empty object) gives ("", None). A
  non-empty `choices` value that is not a list, or a first item that is not a dict,
  makes it raise. The exception is caught by the line handler in
  `stream_response` and reported to the host. `Llm.Extract` therefore returns a `Result`.
- The `api_type == "chat"` test in `extract_content` is case-sensitive. In
  `build_api_request` the same test is case-insensitive. `Llm.ExtractIsCaseSensitive`
  states the difference.

## Model

| member | source | states |
|---|---|---|
| PyValues.AsBool | pythonpath/llm.py:12-20 | as_bool: a bool is itself; text is true when its stripped, lower-cased form is "1", "true", "yes" or "on"; an int is true when non-zero; anything else is false |
| PyValues.PyInt | pythonpath/llm.py:38-41 | int() of a setting: an int as it is, a bool as 0 or 1, text as `ParseInt` reads it; None for anything int() rejects |
| Text.Strip | pythonpath/llm.py:17 | str.strip(): the text without its leading and trailing whitespace |
| Text.Lower | pythonpath/llm.py:17 | str.lower() on ASCII letters: same length, each character lower-cased |
| Text.Contains | pythonpath/llm.py:25 | the `in` test on strings: some slice of the text equals the marker |
| Text.RStripSlash | pythonpath/llm.py:43 | rstrip("/"): the longest prefix that does not end in "/" |
| Text.ParseInt | pythonpath/llm.py:39 | int() on text: optional surrounding whitespace (ASCII whitespace and non-ASCII Unicode whitespace, but not U+001C to U+001F), optional sign, ASCII digits with single underscores between them |
| Text.IntKeepsSeparators | pythonpath/llm.py:39 | "\u001c5" strips to "5", but int() does not skip U+001C and rejects it |
| PyValues.AsBoolText | pythonpath/llm.py:12-20 | text is true exactly when, once stripped and lower-cased, it is one of "1", "true", "yes", "on" (both directions) |
| PyValues.AsBoolIgnoresCase | pythonpath/llm.py:17 | two texts with the same lower-case form have the same truth value |
| PyValues.AsBoolIgnoresPadding | pythonpath/llm.py:17 | whitespace around a text never changes its truth value |
| PyValues.AsBoolOfPaddedWord | pythonpath/llm.py:17 | a true word in any case, with whitespace around it, is true |
| PyValues.AsBoolOfTrimmed | pythonpath/llm.py:17 | text with no surrounding whitespace is true exactly when its lower-case form is a true word |
| PyValues.PyIntOfText | pythonpath/llm.py:38-41 | an integer written out as text reads back unchanged through int() |
| PyValues.AsBoolCapitalsExample | test_llm.py:155-157 | "ON" is true |
| PyValues.AsBoolPaddedExample | pythonpath/llm.py:17 | " Yes\n", a true word in mixed case with whitespace around it, is true |
| PyValues.AsBoolNonTextExamples | test_llm.py:163-177 | -1 is true, 0 and None are false |
| PyValues.AsBoolOtherWordExample | test_llm.py:159-161 | "no" is false |
| PyValues.AsBoolEmptyExample | test_llm.py:159-161 | "" is false |
| Llm.IsOpenAICompatible | pythonpath/llm.py:23-25 | is_openai_compatible: as_bool of the flag, or "api.openai.com" in the lower-cased str() of the endpoint |
| Llm.IsOpenWebUI | pythonpath/llm.py:62 | OpenWebUI is chosen by the flag, or by "open-webui" or "openwebui" in the lower-cased endpoint |
| Llm.MaxTokens | pythonpath/llm.py:38-41 | the token budget: int(max_tokens), or 70 where int() raises |
| Llm.IsChat | pythonpath/llm.py:45 | the chat test of build_api_request: str(api_type) lower-cased equals "chat" |
| Llm.OpenAICompatibleIff | pythonpath/llm.py:23-25 | compatible exactly when the flag is true or some slice of the endpoint spells "api.openai.com" in any letter case |
| Llm.ContainsIgnoresTrailingSlashes | pythonpath/llm.py:43-62 | a slash-free marker occurs in the lower-cased endpoint exactly when it occurs after rstrip("/") |
| Llm.CompatibleIgnoresTrailingSlashes | pythonpath/llm.py:94 | testing the stripped endpoint gives the same answer as testing the raw one |
| Text.RStripSlashIdempotent | pythonpath/llm.py:43 | stripping trailing slashes twice is the same as once |
| Llm.Headers | pythonpath/llm.py:54-59 | Content-Type is always application/json; Authorization is present exactly for a non-empty key, as "Bearer " + key; no other header |
| Llm.BuildApiRequest | pythonpath/llm.py:28-107 | POST; stream, temperature 1, top_p 0.9; max_tokens is int(max_tokens) or 70; headers as above; model present exactly when non-empty; messages exactly for chat (system message first when given, user message last), otherwise the wrapped prompt; seed 10 exactly for completions to a non-compatible endpoint; URL = stripped endpoint + /api or /v1 + route |
| Llm.BuildIgnoresTrailingSlash | pythonpath/llm.py:43 | a trailing slash on the endpoint gives the identical request |
| Llm.UrlNamesChat | pythonpath/llm.py:68-83 | the URL ends in "/chat/completions" exactly for the chat route |
| Llm.UrlNamesOpenWebUI | pythonpath/llm.py:61-63 | the URL ends in "/api" + route exactly when the OpenWebUI prefix was chosen |
| Llm.UrlIdentifiesRoute | pythonpath/llm.py:62-83 | read back from a built request, the URL names the chat route exactly when api_type is chat, and the /api prefix exactly when OpenWebUI was detected |
| Llm.MaxTokensFallback | pythonpath/llm.py:38-41 | text int() rejects, and None, give the budget 70 |
| Llm.MaxTokensSeparatorFallback | pythonpath/llm.py:38-41 | a budget of "\u001c5" falls back to 70, because int() rejects it |
| Llm.LocalOllamaNotOpenAI | pythonpath/llm.py:23-25 | the default local endpoint is not OpenAI-compatible |
| Llm.LocalOllamaNotOpenWebUI | pythonpath/llm.py:62 | the default local endpoint is not detected as OpenWebUI |
| Llm.OllamaExample | test_llm.py:262-277 | a completions request to "http://localhost:11434/" goes to /v1/completions, carries the bare prompt, a seed and no Authorization header, and falls back to 70 tokens for a non-numeric budget |
| Llm.Extract | pythonpath/llm.py:110-123 | no choices key, or a choices value of length zero, gives ("", None); anything else that succeeds came from a dict |
| Llm.ExtractCompletionChoice | pythonpath/llm.py:119-121 | for any non-empty choices list and an api_type other than "chat": a dict first choice gives its "text" (default "") and "finish_reason" (default None); any other first choice raises |
| Llm.ExtractChatChoice | pythonpath/llm.py:115-118 | for any non-empty choices list and api_type "chat": a dict first choice whose delta (default {}) is a dict gives the delta's "content" (default "") and the choice's "finish_reason" (default None); a first choice or a delta that is not a dict raises |
| Llm.ExtractCompletionEvent | pythonpath/llm.py:119-121 | a completions event gives back exactly its text and finish_reason |
| Llm.ExtractChatEvent | pythonpath/llm.py:115-118 | a chat event gives back exactly its delta content and finish_reason |
| Llm.ExtractChatDefaults | test_llm.py:235-253 | a missing delta, an empty delta and a missing choices key give empty content and no finish_reason |
| Llm.ExtractIsCaseSensitive | pythonpath/llm.py:115 | under api_type "Chat" a chat event is read on the completions path and yields empty content |
| Llm.MakeTlsPolicy | pythonpath/llm.py:126-133 | the policy is the default one or the permissive one; hostname checking goes with certificate checking; permissive exactly when as_bool(disable_verification) |
| JsonValues.Truthy | pythonpath/llm.py:164-168 | Python truthiness of a decoded JSON value: null, false, zero and empty strings, lists and objects are false |
| Stream.ClassifyLine | pythonpath/llm.py:157-172 | one pass of the loop body: a blank or non-"data: " line is ignored, the sentinel finishes, a line whose payload fails to decode or extract fails with the message, any other delivers its content and stops when finish_reason is truthy |
| Stream.Trace | pythonpath/llm.py:155-176 | the calls of each classified line in order, up to and including the first line that stops, then the end-of-stream calls only if none stopped |
| Stream.StreamCalls | pythonpath/llm.py:136-176 | the calls stream_response makes for a response: `Trace` of its classified lines and how the transport ended |
| Stream.HandleLine | pythonpath/llm.py:157-172 | the calls one line makes are those of its classification, and the loop stops exactly when the classification says so |
| Stream.ReadLines | pythonpath/llm.py:156-172 | the host has received the calls of `Trace` up to where the loop stopped; the loop reports that it stopped exactly when some line stops the stream (`StopIndex` is within the lines) |
| Stream.StreamResponse | pythonpath/llm.py:136-176 | the host receives exactly `StreamCalls` of the response, appended after what it already had |
| Stream.TraceShape | pythonpath/llm.py:164-176 | every append is followed by one idle call, and only truthy chunks are appended |
| Stream.IgnoredIffNotData | pythonpath/llm.py:158 | a line is ignored exactly when it does not start with "data: " |
| Stream.StopIndex | pythonpath/llm.py:160-168 | the first line that stops the stream: none before it stops, it stops |
| Stream.TraceStopsAt | pythonpath/llm.py:156-168 | when a line stops the stream, the calls are those of each line up to and including it, and nothing from the transport |
| Stream.TraceRunsOut | pythonpath/llm.py:156-176 | when no line stops the stream, the calls are those of every line followed by the end-of-stream calls |
| Stream.StopIgnoresRest | pythonpath/llm.py:160-168 | after a stopping line, neither the later lines nor how the transport ended make any difference |
| Stream.BrokenStreamReportsOnce | pythonpath/llm.py:173-176 | a transport failure adds exactly one "ERROR: " + reason append and one idle call, unless a line had already stopped the stream |
| Stream.FailedLineContinues | pythonpath/llm.py:169-172 | a line that fails is reported with its message and an idle call, and the stream goes on |
| Stream.DataLine | pythonpath/llm.py:158-159 | "data: " + payload + a whitespace line ending is not blank, and its stripped payload is the payload |
| Stream.DoneLine | pythonpath/llm.py:160-161 | the "[DONE]" line, with any whitespace line ending, stops the stream with no call |
| Stream.CompletionLine | pythonpath/llm.py:162-168 | a completions event line delivers its text and stops exactly when its finish_reason is truthy |
| Stream.StoryLines | test_llm.py:49-53 | the sample server's lines (three completions events and the sentinel, each ending in a newline and followed by an empty line) classify as three deliveries, the last one stopping, with the empty lines ignored |
| Stream.ClassifiedEvent | pythonpath/llm.py:157 | an event written as a data line and an empty line classifies as the data line does, and the empty line is ignored |
| Stream.ClassifiedCompletion | pythonpath/llm.py:157-168 | a completions event as the sample server writes it delivers its text, stopping exactly when its finish_reason is truthy, and the empty line after it is ignored |
| Stream.ClassifiedDone | pythonpath/llm.py:157-161 | the sentinel as the sample server writes it finishes the stream, and the empty line after it is ignored |
| Stream.TracePair | pythonpath/llm.py:157-168 | an event that does not stop, followed by an empty line, contributes its own calls and the trace goes on |
| Stream.StoryTrace | test_llm.py:428-433 | those classifications make three append/idle pairs and nothing else |
| Stream.StoryText | test_llm.py:428-433 | the appended pieces join to "Once upon a time" |
| Stream.OnceUponATime | test_llm.py:428-433 | streaming the sample server's lines hands the host "Once ", "upon ", "a time", which join to "Once upon a time" |
| Stream.ConnectionFailure | test_llm.py:591-596 | a refused connection reaches the host as one "ERROR: " message and one idle call |
| Stream.BadJsonIsReported | test_llm.py:598-610 | a data line that is not JSON reaches the host as the parser's message |
| Settings.Get | main.py:77 | dict.get with a default: the stored value when the key is present, else the default |
| Settings.DetectBackend | main.py:223-235 | the preset is never Custom; LM Studio only with ":1234" in the endpoint; text-generation-webui only with ":5000" and no ":1234"; Ollama only with neither port |
| Settings.FixedRows | main.py:214-221 | `BackendPresets` lists the six rows of BACKEND_PRESETS in order; among the fixed presets only OpenWebUI is an OpenWebUI server, and only OpenAI and OpenWebUI use the chat api |
| Settings.DetectedPresetAgrees | main.py:223-235 | the detected preset is OpenWebUI exactly when the stored flag is set, and otherwise uses chat exactly when the stored api_type is chat |
| Settings.DetectsFixedRow | main.py:223-235 | settings that match a fixed preset's flag, api_type and endpoint are detected as that preset |
| Settings.PresetIndex | main.py:241-243 | no selection picks the first preset; an index in range picks that preset; a negative index counts from the end; anything outside -6..5 raises |
| Settings.ReadNumber | main.py:260-263 | a digit string reads as the number int() gives it; anything else reads as 0 |
| Settings.PresetFlags | main.py:244-252 | a fixed preset gives its own api_type, is_openwebui and openai_compatibility; Custom gives the stored api_type through str() and the stored flags through as_bool |
| Settings.DialogFields | main.py:253-263 | the text fields as typed, each checkbox as State == 1, each numeric field through `ReadNumber` |
| Settings.ReadDialogConfig | main.py:237-264 | the dialog fails exactly when the selected index raises; the numeric fields are read with the corrected `ReadNumber` rule, not the rule as written (see Findings) |
| Settings.DialogPresetDecides | main.py:240-252 | a fixed preset sets api_type, is_openwebui and openai_compatibility; Custom keeps the stored api_type as text and coerces the stored flags with as_bool |
| Settings.DialogFieldsRead | main.py:253-263 | every text field is taken as typed; each checkbox is ticked exactly when its state is 1; both numeric fields are non-negative ints |
| Settings.FieldSurvives | main.py:239-263 | a dialog field that the preset does not decide reaches the result unchanged |
| Settings.DialogTextsRead | main.py:254-256 | in the dialog's result, all five text fields are the text as typed |
| Settings.DialogControlsRead | main.py:257-263 | in the dialog's result, each checkbox is State == 1 and each numeric field a non-negative int |
| Settings.DialogEndpoint | main.py:254-256 | the endpoint field is taken as typed |
| Settings.DialogTextValues | main.py:254-256 | endpoint, model, api_key and both system prompts are taken as typed |
| Settings.DialogCheckboxValues | main.py:258-259 | disable_ssl_verification and debug_logging each read as true exactly when their state is 1 |
| Settings.DialogNumericValues | main.py:260-263 | the numeric fields are ints and never negative |
| Settings.NormalApiType | main.py:472-475 | the stored api_type is "chat" or "completions", and "chat" exactly when the stripped, lower-cased text is "chat" |
| Settings.NormalApiTypeIdempotent | main.py:472-475 | normalising a normalised api_type changes nothing |
| Settings.Kept | main.py:470-471 | a key is saved unless it is an endpoint whose str() does not start with "http" |
| Settings.Stored | main.py:472-475 | the value saved for a key: api_type normalised, anything else as given |
| Settings.Written | main.py:91-102 | a run of set_config calls: the file as read (empty if missing), with each written key set |
| Settings.AfterSave | main.py:468-476 | the file after _save_settings: untouched when no key is kept, else `Written` of the kept keys' stored values |
| Settings.Saved | main.py:468-476 | a key is written exactly when it is in the result and is not an endpoint lacking "http"; a written endpoint starts with "http"; a written api_type is normal; every other key is written verbatim |
| Settings.ConfigStore.SetConfig | main.py:79-110 | the file becomes what was read (empty if missing or unreadable) with the one key set |
| Settings.ConfigStore.SaveSettings | main.py:468-476 | after the loop the file is `AfterSave` of the old file: untouched when nothing is written, else what it held with every saved key replaced |
| Settings.WrittenStep | main.py:91-102 | one more set_config call on top of earlier ones sets that key in the file they left |
| Settings.SaveIdempotent | main.py:468-476 | saving the same result twice leaves the file as saving it once |
| Settings.SaveKeepsOtherKeys | main.py:91-102 | a stored key that the result does not mention keeps its value |
| Settings.BadEndpointNotStored | main.py:470-471 | an endpoint that does not start with "http" leaves the stored endpoint, or its absence, as it was |
| Settings.SavedEntry | main.py:468-476 | a kept key reads back as it was stored |
| Settings.FixedRowsStorable | main.py:214-219 | every fixed preset's endpoint passes the "http" test and its api_type is already normal |
| Settings.SavedPresetSettings | main.py:237-252 | after choosing a fixed preset with its own endpoint and saving, the stored api_type, OpenWebUI flag and endpoint are the preset's |
| Settings.PresetRoundTrip | main.py:223-264 | choosing a fixed preset with its own endpoint and saving makes the next dialog preselect the same preset |
| Settings.EditAllowance | main.py:577-581 | int() of the stored allowance, or 0 where int() raises |
| Settings.EditBudget | main.py:578-581 | the edit budget is the selection's length plus int() of the stored allowance, or just the length where int() raises |
| Settings.WriterEditBudget | main.py:523 | as written: the raw setting is added, so only an int or a bool gives a budget and anything else raises TypeError |
| Settings.WriterBudgetAgrees | main.py:523 | the text-document path gives a budget exactly for an int or a bool, and then the same one as the spreadsheet path |
| Settings.TextAllowanceBreaksWriterBudget | main.py:523 | an allowance stored as "50" raises on the text-document path and gives length + 50 on the spreadsheet path |
| Settings.DialogBudgetCoversSelection | main.py:604 | with an allowance read from the dialog, the budget is at least the selection's length |
| Settings.IsPyDigits | main.py:263 | str.isdigit() in the model: non-empty, and every character an ASCII digit or a superscript one, two or three |
| Settings.ReadNumberAsWritten | main.py:261-263 | as written: isdigit() admits superscript digits, which int() then rejects |
| Settings.SuperscriptBreaksNumericField | main.py:263 | "²" passes the isdigit() guard and makes reading the dialog raise, where ReadNumber gives 0 |
| Settings.SuperscriptNotParsed | main.py:263 | text isdigit() accepts that holds a superscript digit is rejected by int() |
| Settings.ReadNumberAgrees | main.py:263 | wherever the rule as written yields a number, it is ReadNumber's |

## Left out

- Floats: `as_bool` and `int()` on a float, and a float `max_tokens`, are not modelled.
  JSON floats inside events are not modelled either. `JNum` holds an int, so a float
  `content` or `finish_reason`, and the falsity of `0.0`, are outside the model.
  A setting is `None`, a bool, an int, a str, or another object given by its type name
  and its `str()` text.
- `str.lower` is modelled on ASCII letters only.
- The model's `str.isdigit` (`Settings.IsPyDigits`) covers the ASCII digits and the
  superscripts one, two and three only. The model's `int()` on text (`Text.ParseInt`)
  covers ASCII digits with single underscores between them only. Python accepts more:
  other Unicode digits such as "٣" and "⁴" pass `isdigit()`, and `int()` also reads
  other Unicode decimal digits, so `int("٣") == 3`. That costs the following.
  - A dialog field "٣" reads as 3 at main.py:263. `Settings.ReadNumber` and
    `Settings.ReadNumberAsWritten` give 0 for it.
  - A `max_tokens` of "٣" gives 3 at llm.py:39. `Llm.MaxTokens` gives 70 for it.
  - `Settings.EditAllowance` gives 0 for "٣", where main.py:579 gives 3.
  - A dialog field "⁴" makes `_read_dialog_config` raise as written.
    `Settings.ReadNumberAsWritten` gives Ok(0) for it.
  - `Settings.ReadNumberAgrees`, and the main.py:263 row under Findings, hold only
    for the digits the model covers.
- Text.ParseInt: Python 3.11 and later refuse text of more than 4300 digits in
  `int()` with ValueError. The model reads a number of any length.
- Decoding a line's bytes as UTF-8 is not modelled: lines are text.
- `json.loads` is the `decode` parameter of the stream functions.
- `json.dumps` and the byte encoding of the body are not modelled: the body is a record.
- The network is not modelled. A `Response` is the lines the server sent and how the
  transport ended: complete, or broken with a message. A refused connection or an HTTP
  error status is a broken response with no lines.
- Logging (`log_fn`, the debug log) is left out: it changes nothing the core returns.
- The UNO dialogs, documents and path settings are left out. The dialog is the record of
  its controls' values.
- Reading and writing `localwriter.json` is left out. The file is its parsed contents,
  or `None` when it is missing or does not parse. A file that parses to something other
  than a JSON object is not modelled.
- A failed write in `set_config` is not modelled: its error is printed and ignored.
- Exceptions raised by `append_callback` or `on_idle` are not modelled: the callbacks
  only record what they are handed.
- The wording of Python's exception messages is modelled only loosely: an error is a
  non-empty text.
- urllib's `Request` stores each header name through `str.capitalize()`, so it sends
  "Content-type". `Llm.Headers` keeps the names as the dict at llm.py:54-59 writes
  them.
- `Llm.BuildApiRequest`'s url is the endpoint and the path joined as text. urllib's
  `Request` constructor also strips and unwraps the URL and splits off a fragment, and
  it raises ValueError for a URL without a scheme (an empty endpoint, say); none of
  that is modelled.
- `Llm.BuildApiRequest` takes the system prompt as text. `main.py` passes the raw
  stored setting there (lines 497, 522, 574 and 576), which `build_api_request` tests
  for truthiness and formats into the prompt or the system message; a system prompt
  stored as something other than text is not modelled.
- `Llm.TopP` is the real 0.9; the model does no arithmetic with it.

## Findings

| source | as written | input that shows it | evidently intended | confidence | as-written member | corrected member |
|---|---|---|---|---|---|---|
| main.py:523 | the text-document edit budget adds the raw `edit_selection_max_new_tokens` setting to the selection's length | the setting stored as the text "50" raises TypeError, so no edit request is made | coerce the setting with `int()` and fall back to 0, as the spreadsheet path does at lines 578-581 | not executed | Settings.WriterEditBudget, Settings.TextAllowanceBreaksWriterBudget | Settings.EditBudget, Settings.WriterBudgetAgrees |
| main.py:263 | a numeric field is read as `int(text) if text.isdigit() else 0` | "²": `isdigit()` accepts it and `int()` raises ValueError, so reading the dialog fails | any text that is not a plain number reads as 0 | not executed | Settings.ReadNumberAsWritten, Settings.SuperscriptBreaksNumericField | Settings.ReadNumber, Settings.ReadNumberAgrees |
