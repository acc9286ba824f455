/** The decision rules of the extension's entry point: which backend preset the stored
    settings look like, what the settings dialog reads back, how settings are stored in
    localwriter.json, and the token budget of an edit request. */
module Settings {
  import opened Wrappers
  import opened Text
  import opened PyValues
  import Llm

  /** The settings as get_config sees them: the keys of localwriter.json. */
  type Config = map<string, Value>

  /** config_data.get(key, default) */
  function Get(cfg: Config, key: string, default: Value): Value {
    if key in cfg then cfg[key] else default
  }

  // ---------------------------------------------------------------- presets

  /** One row of BACKEND_PRESETS: api_type, is_openwebui, openai_compatibility and the
      default endpoint, or the Custom row that has none of them. */
  datatype Preset =
    | Fixed(name: string, apiType: string, isOpenWebUI: bool, openaiCompatible: bool, endpoint: string)
    | Custom(name: string)

  const BackendPresets: seq<Preset> := [
    Fixed("Ollama", "completions", false, false, Llm.LocalOllama),
    Fixed("LM Studio", "completions", false, false, "http://localhost:1234"),
    Fixed("text-generation-webui", "completions", false, false, "http://localhost:5000"),
    Fixed("OpenAI", "chat", false, false, "https://api.openai.com"),
    Fixed("OpenWebUI", "chat", true, false, "http://localhost:3000"),
    Custom("Custom")
  ]

  /** str(get_config("api_type", "completions")).lower() */
  function ApiTypeSetting(cfg: Config): string {
    Lower(PyStr(Get(cfg, "api_type", S("completions"))))
  }

  /** as_bool(get_config("is_openwebui", False)) */
  predicate OpenWebUISetting(cfg: Config) {
    AsBool(Get(cfg, "is_openwebui", B(false)))
  }

  /** str(get_config("endpoint", "http://localhost:11434")) */
  function EndpointSetting(cfg: Config): string {
    PyStr(Get(cfg, "endpoint", S(Llm.LocalOllama)))
  }

  /** _detect_backend: the preset the dialog preselects. The OpenWebUI flag wins over
      everything, then a chat api_type, then the LM Studio and text-generation-webui
      ports in the endpoint (case-sensitive tests); Ollama otherwise. */
  function DetectBackend(cfg: Config): (k: nat)
    ensures k < |BackendPresets| - 1
    ensures k == 1 ==> Contains(EndpointSetting(cfg), ":1234")
    ensures k == 2 ==> Contains(EndpointSetting(cfg), ":5000") && !Contains(EndpointSetting(cfg), ":1234")
    ensures k == 0 ==> !Contains(EndpointSetting(cfg), ":1234") && !Contains(EndpointSetting(cfg), ":5000")
  {
    if OpenWebUISetting(cfg) then 4
    else if ApiTypeSetting(cfg) == "chat" then 3
    else if Contains(EndpointSetting(cfg), ":1234") then 1
    else if Contains(EndpointSetting(cfg), ":5000") then 2
    else 0
  }

  /** The preset _detect_backend picks is never Custom, is the OpenWebUI row exactly when
      the stored flag is set, and otherwise has a chat api_type exactly when the stored
      api_type is chat. */
  lemma DetectedPresetAgrees(cfg: Config)
    ensures var p := BackendPresets[DetectBackend(cfg)];
      && p.Fixed?
      && (p.isOpenWebUI <==> OpenWebUISetting(cfg))
      && (!OpenWebUISetting(cfg) ==> (p.apiType == "chat" <==> ApiTypeSetting(cfg) == "chat"))
  {
    FixedRows(DetectBackend(cfg));
  }

  /** The flags of the five fixed rows: only OpenWebUI is an OpenWebUI server, and only
      OpenAI and OpenWebUI speak the chat api. */
  lemma FixedRows(k: nat)
    requires k < |BackendPresets| - 1
    ensures BackendPresets[k].Fixed?
    ensures BackendPresets[k].isOpenWebUI <==> k == 4
    ensures BackendPresets[k].apiType == "chat" <==> k == 3 || k == 4
  {
    var p := BackendPresets[k];
    if k < 3 {
      assert p.apiType == "completions";
      assert p.apiType[1] != "chat"[1];
    }
  }

  // ---------------------------------------------------------------- dialog

  /** What the settings dialog's controls hold when it is read. */
  datatype Dialog = Dialog(
    selected: seq<int>,        // SelectedItems of the backend list
    endpoint: string,
    model: string,
    apiKey: string,
    extendPrompt: string,
    editPrompt: string,
    disableSsl: int,           // State of a checkbox: 1 when ticked
    debugLogging: int,
    extendMaxTokens: string,
    editMaxNewTokens: string)

  /** BACKEND_PRESETS[sel[0] if sel else 0]: Python indexing, where -1 is the last row
      and an index outside -6..5 raises IndexError. */
  function PresetIndex(selected: seq<int>): (r: Option<nat>)
    ensures r.Some? ==> r.value < |BackendPresets|
    ensures selected == [] ==> r == Some(0)
    ensures selected != [] && 0 <= selected[0] < |BackendPresets| ==> r == Some(selected[0])
    ensures selected != [] && -|BackendPresets| <= selected[0] < 0 ==> r == Some(selected[0] + |BackendPresets|)
    ensures r.None? <==> selected != [] && !(-|BackendPresets| <= selected[0] < |BackendPresets|)
  {
    var idx := if selected != [] then selected[0] else 0;
    if 0 <= idx < |BackendPresets| then Some(idx)
    else if -|BackendPresets| <= idx < 0 then Some(idx + |BackendPresets|)
    else None
  }

  /** `int(text) if text.isdigit() else 0` for ASCII text: never negative. */
  function ReadNumber(text: string): (n: nat)
    ensures IsDigits(text) ==> ParseInt(text) == Some(n as int)
    ensures !IsDigits(text) ==> n == 0
  {
    if IsDigits(text) then
      ParseIntDigits(text);
      DigitsValue(text)
    else 0
  }

  /** The three settings a preset decides; Custom keeps the stored ones, with the two
      flags coerced to bool. */
  function PresetFlags(preset: Preset, cfg: Config): Config {
    match preset
    case Fixed(_, apiType, openWebUI, compatible, _) =>
      map["api_type" := S(apiType), "is_openwebui" := B(openWebUI), "openai_compatibility" := B(compatible)]
    case Custom(_) =>
      map["api_type" := S(PyStr(Get(cfg, "api_type", S("completions")))),
          "is_openwebui" := B(AsBool(Get(cfg, "is_openwebui", B(false)))),
          "openai_compatibility" := B(AsBool(Get(cfg, "openai_compatibility", B(false))))]
  }

  /** The text fields, the checkboxes and the numeric fields of the dialog. */
  function DialogFields(d: Dialog): Config {
    TextFields(d) + Checkboxes(d) + NumericFields(d)
  }

  /** The five text fields, taken as typed. */
  function TextFields(d: Dialog): Config {
    map[
      "endpoint" := S(d.endpoint),
      "model" := S(d.model),
      "api_key" := S(d.apiKey),
      "extend_selection_system_prompt" := S(d.extendPrompt),
      "edit_selection_system_prompt" := S(d.editPrompt)]
  }

  /** A checkbox is on exactly when its state is 1. */
  function Checkboxes(d: Dialog): Config {
    map[
      "disable_ssl_verification" := B(d.disableSsl == 1),
      "debug_logging" := B(d.debugLogging == 1)]
  }

  function NumericFields(d: Dialog): Config {
    map[
      "extend_selection_max_tokens" := I(ReadNumber(d.extendMaxTokens)),
      "edit_selection_max_new_tokens" := I(ReadNumber(d.editMaxNewTokens))]
  }

  /** _read_dialog_config(controls), given the stored settings cfg: the config dict, or
      the IndexError a selection outside the preset list raises. */
  function ReadDialogConfig(d: Dialog, cfg: Config): (r: Result<Config, string>)
    ensures r.Err? <==> PresetIndex(d.selected).None?
  {
    match PresetIndex(d.selected)
    case None => Err("list index out of range")
    // The two parts have no key in common, so the order of the union is immaterial.
    case Some(k) => Ok(DialogFields(d) + PresetFlags(BackendPresets[k], cfg))
  }

  /** A fixed preset decides api_type and the two flags; Custom keeps the stored api_type
      as text and coerces the stored flags to bool. */
  lemma DialogPresetDecides(d: Dialog, cfg: Config)
    requires PresetIndex(d.selected).Some?
    ensures var r := ReadDialogConfig(d, cfg).value;
      var p := BackendPresets[PresetIndex(d.selected).value];
      && "api_type" in r && "is_openwebui" in r && "openai_compatibility" in r
      && (p.Fixed? ==>
            && r["api_type"] == S(p.apiType)
            && r["is_openwebui"] == B(p.isOpenWebUI)
            && r["openai_compatibility"] == B(p.openaiCompatible))
      && (p.Custom? ==>
            && r["api_type"] == S(PyStr(Get(cfg, "api_type", S("completions"))))
            && r["is_openwebui"] == B(OpenWebUISetting(cfg))
            && r["openai_compatibility"] == B(AsBool(Get(cfg, "openai_compatibility", B(false)))))
  {
    var p := BackendPresets[PresetIndex(d.selected).value];
    var flags := PresetFlags(p, cfg);
    assert ReadDialogConfig(d, cfg).value == DialogFields(d) + flags;
    PresetFlagsKeys(p, cfg);
  }

  /** The text fields are taken verbatim, each checkbox is ticked exactly when its
      state is 1, and the numeric fields are never negative. */
  lemma DialogFieldsRead(d: Dialog, cfg: Config)
    requires PresetIndex(d.selected).Some?
    ensures var r := ReadDialogConfig(d, cfg).value;
      && "endpoint" in r && "model" in r && "api_key" in r
      && "extend_selection_system_prompt" in r && "edit_selection_system_prompt" in r
      && r["endpoint"] == S(d.endpoint)
      && r["model"] == S(d.model)
      && r["api_key"] == S(d.apiKey)
      && r["extend_selection_system_prompt"] == S(d.extendPrompt)
      && r["edit_selection_system_prompt"] == S(d.editPrompt)
    ensures var r := ReadDialogConfig(d, cfg).value;
      && "disable_ssl_verification" in r && "debug_logging" in r
      && "edit_selection_max_new_tokens" in r && "extend_selection_max_tokens" in r
      && r["disable_ssl_verification"] == B(d.disableSsl == 1)
      && r["debug_logging"] == B(d.debugLogging == 1)
      && r["edit_selection_max_new_tokens"].I? && r["edit_selection_max_new_tokens"].i >= 0
      && r["extend_selection_max_tokens"].I? && r["extend_selection_max_tokens"].i >= 0
  {
    DialogTextsRead(d, cfg);
    DialogControlsRead(d, cfg);
  }

  /** A field of the dialog that no preset decides reaches the result unchanged. */
  lemma FieldSurvives(d: Dialog, cfg: Config, key: string)
    requires PresetIndex(d.selected).Some?
    requires key in DialogFields(d) && key !in PresetKeys
    ensures key in ReadDialogConfig(d, cfg).value
    ensures ReadDialogConfig(d, cfg).value[key] == DialogFields(d)[key]
  {
    PresetFlagsKeys(BackendPresets[PresetIndex(d.selected).value], cfg);
  }

  lemma DialogTextsRead(d: Dialog, cfg: Config)
    requires PresetIndex(d.selected).Some?
    ensures var r := ReadDialogConfig(d, cfg).value;
      && "endpoint" in r && "model" in r && "api_key" in r
      && "extend_selection_system_prompt" in r && "edit_selection_system_prompt" in r
      && r["endpoint"] == S(d.endpoint)
      && r["model"] == S(d.model)
      && r["api_key"] == S(d.apiKey)
      && r["extend_selection_system_prompt"] == S(d.extendPrompt)
      && r["edit_selection_system_prompt"] == S(d.editPrompt)
  {
    DialogTextValues(d);
    DialogKeysApart();
    FieldSurvives(d, cfg, "endpoint");
    FieldSurvives(d, cfg, "model");
    FieldSurvives(d, cfg, "api_key");
    FieldSurvives(d, cfg, "extend_selection_system_prompt");
    FieldSurvives(d, cfg, "edit_selection_system_prompt");
  }

  lemma DialogControlsRead(d: Dialog, cfg: Config)
    requires PresetIndex(d.selected).Some?
    ensures var r := ReadDialogConfig(d, cfg).value;
      && "disable_ssl_verification" in r && "debug_logging" in r
      && "edit_selection_max_new_tokens" in r && "extend_selection_max_tokens" in r
      && r["disable_ssl_verification"] == B(d.disableSsl == 1)
      && r["debug_logging"] == B(d.debugLogging == 1)
      && r["edit_selection_max_new_tokens"].I? && r["edit_selection_max_new_tokens"].i >= 0
      && r["extend_selection_max_tokens"].I? && r["extend_selection_max_tokens"].i >= 0
  {
    DialogCheckboxValues(d);
    DialogNumericValues(d);
    DialogKeysApart();
    FieldSurvives(d, cfg, "disable_ssl_verification");
    FieldSurvives(d, cfg, "debug_logging");
    FieldSurvives(d, cfg, "edit_selection_max_new_tokens");
    FieldSurvives(d, cfg, "extend_selection_max_tokens");
  }

  /** The keys a preset decides. */
  const PresetKeys: set<string> := {"api_type", "is_openwebui", "openai_compatibility"}

  lemma PresetFlagsKeys(preset: Preset, cfg: Config)
    ensures PresetFlags(preset, cfg).Keys == PresetKeys
  {
  }

  lemma DialogKeysApart()
    ensures "endpoint" !in PresetKeys && "api_key" !in PresetKeys && "model" !in PresetKeys
    ensures "extend_selection_system_prompt" !in PresetKeys && "edit_selection_system_prompt" !in PresetKeys
    ensures "disable_ssl_verification" !in PresetKeys && "debug_logging" !in PresetKeys
    ensures "edit_selection_max_new_tokens" !in PresetKeys && "extend_selection_max_tokens" !in PresetKeys
  {
  }

  /** Every text field is taken as typed. */
  lemma DialogTextValues(d: Dialog)
    ensures var f := DialogFields(d);
      && f["endpoint"] == S(d.endpoint)
      && f["model"] == S(d.model)
      && f["api_key"] == S(d.apiKey)
      && f["extend_selection_system_prompt"] == S(d.extendPrompt)
      && f["edit_selection_system_prompt"] == S(d.editPrompt)
  {
    var text := TextFields(d);
    assert text["endpoint"] == S(d.endpoint) && text["model"] == S(d.model);
    assert text["api_key"] == S(d.apiKey);
    assert text["extend_selection_system_prompt"] == S(d.extendPrompt);
    assert text["edit_selection_system_prompt"] == S(d.editPrompt);
    NotNumericKey("endpoint", d);
    NotNumericKey("model", d);
    NotNumericKey("api_key", d);
    NotNumericKey("extend_selection_system_prompt", d);
    NotNumericKey("edit_selection_system_prompt", d);
    NotCheckboxKey("endpoint", d);
    NotCheckboxKey("model", d);
    NotCheckboxKey("api_key", d);
    NotCheckboxKey("extend_selection_system_prompt", d);
    NotCheckboxKey("edit_selection_system_prompt", d);
  }

  /** Each checkbox reads as true exactly when its state is 1. */
  lemma DialogCheckboxValues(d: Dialog)
    ensures DialogFields(d)["disable_ssl_verification"] == B(d.disableSsl == 1)
    ensures DialogFields(d)["debug_logging"] == B(d.debugLogging == 1)
  {
    NotNumericKey("disable_ssl_verification", d);
    NotNumericKey("debug_logging", d);
  }

  lemma DialogNumericValues(d: Dialog)
    ensures var f := DialogFields(d);
      && f["edit_selection_max_new_tokens"].I? && f["edit_selection_max_new_tokens"].i >= 0
      && f["extend_selection_max_tokens"].I? && f["extend_selection_max_tokens"].i >= 0
  {
  }

  /** The endpoint field, as typed. */
  lemma DialogEndpoint(d: Dialog)
    ensures "endpoint" in DialogFields(d) && DialogFields(d)["endpoint"] == S(d.endpoint)
  {
    assert TextFields(d)["endpoint"] == S(d.endpoint);
    NotNumericKey("endpoint", d);
    NotCheckboxKey("endpoint", d);
  }

  /** A key whose length differs from both numeric fields' is not one of them. */
  lemma NotNumericKey(key: string, d: Dialog)
    requires |key| != |"extend_selection_max_tokens"| && |key| != |"edit_selection_max_new_tokens"|
    ensures key !in NumericFields(d)
  {
  }

  /** A key whose length differs from both checkboxes' is not one of them. */
  lemma NotCheckboxKey(key: string, d: Dialog)
    requires |key| != |"disable_ssl_verification"| && |key| != |"debug_logging"|
    ensures key !in Checkboxes(d)
  {
  }

  // ---------------------------------------------------------------- storing

  /** str(value).strip().lower(), forced to "chat" or "completions". */
  function NormalApiType(value: Value): (t: string)
    ensures t == "chat" || t == "completions"
    ensures t == "chat" <==> Lower(Strip(PyStr(value))) == "chat"
  {
    var t := Lower(Strip(PyStr(value)));
    if t == "chat" || t == "completions" then t else "completions"
  }

  /** _save_settings skips an endpoint whose text does not start with "http". */
  predicate Kept(key: string, value: Value) {
    !(key == "endpoint" && !("http" <= PyStr(value)))
  }

  /** The value _save_settings hands to set_config for one key. */
  function Stored(key: string, value: Value): Value {
    if key == "api_type" then S(NormalApiType(value)) else value
  }

  /** The entries of result whose keys are in keys, as _save_settings stores them. */
  function SavedOf(result: Config, keys: set<string>): Config {
    map k | k in keys && k in result && Kept(k, result[k]) :: Stored(k, result[k])
  }

  /** Everything _save_settings(result) writes. */
  function Saved(result: Config): (s: Config)
    ensures forall k :: k in s <==> k in result && Kept(k, result[k])
    ensures "endpoint" in s ==> "http" <= PyStr(s["endpoint"])
    ensures "api_type" in s ==> s["api_type"] == S("chat") || s["api_type"] == S("completions")
    ensures forall k :: k in s && k != "api_type" ==> s[k] == result[k]
  {
    SavedOf(result, result.Keys)
  }

  /** What get_config reads from the file: a missing or unreadable file reads as empty,
      and set_config starts from an empty dict in that case too. */
  function Loaded(file: Option<Config>): Config {
    if file.Some? then file.value else map[]
  }

  /** The file after _save_settings(result): untouched when nothing is written, else
      what it read with every saved key replaced. */
  function AfterSave(file: Option<Config>, result: Config): Option<Config> {
    Written(file, Saved(result))
  }

  /** The file after set_config has been called for each entry of written. */
  function Written(file: Option<Config>, written: Config): Option<Config> {
    if written == map[] then file else Some(Loaded(file) + written)
  }

  /** One more set_config call on top of the ones in written. */
  lemma WrittenStep(file: Option<Config>, written: Config, key: string, value: Value)
    ensures Written(file, written[key := value]) == Some(Loaded(Written(file, written))[key := value])
  {
    assert key in written[key := value];
    if written == map[] {
      assert written[key := value] == map[key := value];
      assert Loaded(file)[key := value] == Loaded(file) + map[key := value];
    } else {
      assert (Loaded(file) + written)[key := value] == Loaded(file) + written[key := value];
    }
  }

  /** localwriter.json, held as its parsed contents. */
  class ConfigStore {
    /** None when the file is missing or does not parse. */
    var file: Option<Config>

    constructor (file: Option<Config>)
      ensures this.file == file
    {
      this.file := file;
    }

    /** The settings get_config sees. */
    function View(): Config
      reads this
    {
      Loaded(file)
    }

    /** set_config(key, value): load the file (or start empty), set one key, write it back. */
    method SetConfig(key: string, value: Value)
      modifies this
      ensures file == Some(old(View())[key := value])
    {
      var data := if file.Some? then file.value else map[];
      data := data[key := value];
      file := Some(data);
    }

    /** _save_settings(result): set_config for each kept key, with api_type normalised. */
    method SaveSettings(result: Config)
      modifies this
      ensures file == AfterSave(old(file), result)
    {
      var keys := result.Keys;
      ghost var done: set<string> := {};
      while keys != {}
        invariant keys !! done && keys + done == result.Keys
        invariant file == Written(old(file), SavedOf(result, done))
        decreases keys
      {
        var key :| key in keys;
        var value := result[key];
        SavedOfInsert(result, done, key);
        if Kept(key, value) {
          WrittenStep(old(file), SavedOf(result, done), key, Stored(key, value));
          SetConfig(key, Stored(key, value));
        }
        keys := keys - {key};
        done := done + {key};
      }
      assert done == result.Keys;
    }
  }

  /** Taking one more key into account adds that key's stored value, or nothing when it
      is skipped. */
  lemma SavedOfInsert(result: Config, done: set<string>, key: string)
    requires key in result && key !in done
    ensures Kept(key, result[key]) ==> SavedOf(result, done + {key}) == SavedOf(result, done)[key := Stored(key, result[key])]
    ensures !Kept(key, result[key]) ==> SavedOf(result, done + {key}) == SavedOf(result, done)
  {
  }

  // ---------------------------------------------------------------- properties of storing

  lemma StripChat()
    ensures Strip("chat") == "chat"
  {
    assert Trimmed("chat");
    StripExact([], "chat", []);
    assert [] + "chat" + [] == "chat";
  }

  lemma LowerChat()
    ensures Lower("chat") == "chat"
  {
    var c := "chat";
    assert LowerChar(c[0]) == c[0] && LowerChar(c[1]) == c[1];
    assert LowerChar(c[2]) == c[2] && LowerChar(c[3]) == c[3];
  }

  lemma NormalChat()
    ensures NormalApiType(S("chat")) == "chat"
  {
    StripChat();
    LowerChat();
  }

  lemma NormalCompletions()
    ensures NormalApiType(S("completions")) == "completions"
  {
    assert Trimmed("completions");
    StripExact([], "completions", []);
    assert [] + "completions" + [] == "completions";
  }

  /** A stored api_type is already normal: normalising it again changes nothing. */
  lemma NormalApiTypeIdempotent(value: Value)
    ensures NormalApiType(S(NormalApiType(value))) == NormalApiType(value)
  {
    if NormalApiType(value) == "chat" {
      NormalChat();
    } else {
      NormalCompletions();
    }
  }

  /** Saving what was just saved changes nothing. */
  lemma SaveIdempotent(file: Option<Config>, result: Config)
    ensures AfterSave(AfterSave(file, result), result) == AfterSave(file, result)
  {
    var s := Saved(result);
    if s != map[] {
      assert (Loaded(file) + s) + s == Loaded(file) + s;
    }
  }

  /** Saving never removes a key, and a key result does not mention keeps its value. */
  lemma SaveKeepsOtherKeys(file: Option<Config>, result: Config, key: string)
    requires key in Loaded(file) && key !in result
    ensures key in Loaded(AfterSave(file, result))
    ensures Loaded(AfterSave(file, result))[key] == Loaded(file)[key]
  {
  }

  /** An endpoint that does not start with "http" leaves the stored endpoint as it was. */
  lemma BadEndpointNotStored(file: Option<Config>, result: Config)
    requires "endpoint" in result && !("http" <= PyStr(result["endpoint"]))
    ensures ("endpoint" in Loaded(AfterSave(file, result))) == ("endpoint" in Loaded(file))
    ensures "endpoint" in Loaded(file) ==> Loaded(AfterSave(file, result))["endpoint"] == Loaded(file)["endpoint"]
  {
  }

  // ---------------------------------------------------------------- round trip

  /** The dialog with preset k selected and the preset's own endpoint, every other
      control as given. */
  function PresetDialog(k: nat, d: Dialog): Dialog
    requires k < |BackendPresets| && BackendPresets[k].Fixed?
  {
    d.(selected := [k], endpoint := BackendPresets[k].endpoint)
  }

  lemma OllamaHasNoTwo()
    ensures '2' !in Llm.LocalOllama
  {
  }

  lemma OllamaHasNoFive()
    ensures '5' !in Llm.LocalOllama
  {
  }

  lemma OllamaLacksLMStudioPort()
    ensures !Contains(Llm.LocalOllama, ":1234")
  {
    OllamaHasNoTwo();
    NotContainsMissingChar(Llm.LocalOllama, ":1234", 2);
  }

  lemma OllamaLacksWebUIPort()
    ensures !Contains(Llm.LocalOllama, ":5000")
  {
    OllamaHasNoFive();
    NotContainsMissingChar(Llm.LocalOllama, ":5000", 1);
  }

  lemma LMStudioEndpointPort()
    ensures Contains("http://localhost:1234", ":1234")
  {
    ContainsAt("http://localhost:1234", ":1234", 16);
  }

  lemma WebUIHasNoTwo()
    ensures '2' !in "http://localhost:5000"
  {
  }

  lemma WebUILacksLMStudioPort()
    ensures !Contains("http://localhost:5000", ":1234")
  {
    WebUIHasNoTwo();
    NotContainsMissingChar("http://localhost:5000", ":1234", 2);
  }

  lemma WebUIEndpointPort()
    ensures Contains("http://localhost:5000", ":5000")
  {
    ContainsAt("http://localhost:5000", ":5000", 16);
  }

  /** A key _save_settings keeps reads back as it was stored. */
  lemma SavedEntry(file: Option<Config>, result: Config, key: string)
    requires key in result && Kept(key, result[key])
    ensures key in Loaded(AfterSave(file, result))
    ensures Loaded(AfterSave(file, result))[key] == Stored(key, result[key])
  {
    assert key in Saved(result);
  }

  /** Every fixed preset's endpoint passes the "http" test, and its api_type is normal. */
  lemma FixedRowsStorable(k: nat)
    requires k < |BackendPresets| - 1
    ensures BackendPresets[k].Fixed?
    ensures "http" <= BackendPresets[k].endpoint
    ensures NormalApiType(S(BackendPresets[k].apiType)) == BackendPresets[k].apiType
    ensures Lower(BackendPresets[k].apiType) == BackendPresets[k].apiType
  {
    var p := BackendPresets[k];
    assert p.endpoint[..4] == "http";
    if k < 3 {
      assert p.apiType == "completions";
      NormalCompletions();
      LowerCompletions();
    } else {
      assert p.apiType == "chat";
      NormalChat();
      LowerChat();
    }
  }

  lemma LowerCompletions()
    ensures Lower("completions") == "completions"
  {
    var c := "completions";
    assert forall i :: 0 <= i < |c| ==> LowerChar(c[i]) == c[i];
  }

  /** The stored settings after choosing preset k and saving read back the three
      settings the preset decides. */
  lemma {:induction false} SavedPresetSettings(k: nat, d: Dialog, cfg: Config, file: Option<Config>)
    requires k < |BackendPresets| - 1
    ensures var p := BackendPresets[k];
      var r := ReadDialogConfig(PresetDialog(k, d), cfg);
      var view := Loaded(AfterSave(file, r.value));
      && r.Ok?
      && Get(view, "api_type", S("completions")) == S(p.apiType)
      && Get(view, "is_openwebui", B(false)) == B(p.isOpenWebUI)
      && Get(view, "endpoint", S(Llm.LocalOllama)) == S(p.endpoint)
  {
    var p := BackendPresets[k];
    FixedRowsStorable(k);
    var pd := PresetDialog(k, d);
    assert PresetIndex(pd.selected) == Some(k);
    DialogPresetDecides(pd, cfg);
    DialogKeysApart();
    FieldSurvives(pd, cfg, "endpoint");
    DialogEndpoint(pd);
    var result := ReadDialogConfig(pd, cfg).value;
    assert result["api_type"] == S(p.apiType);
    assert result["is_openwebui"] == B(p.isOpenWebUI);
    assert result["endpoint"] == S(p.endpoint);
    SavedEntry(file, result, "api_type");
    SavedEntry(file, result, "is_openwebui");
    SavedEntry(file, result, "endpoint");
  }

  /** Stored settings that look exactly like fixed preset k are detected as preset k. */
  lemma {:induction false} DetectsFixedRow(cfg: Config, k: nat)
    requires k < |BackendPresets| - 1
    requires OpenWebUISetting(cfg) == BackendPresets[k].isOpenWebUI
    requires ApiTypeSetting(cfg) == BackendPresets[k].apiType
    requires EndpointSetting(cfg) == BackendPresets[k].endpoint
    ensures DetectBackend(cfg) == k
  {
    FixedRows(k);
    if k == 0 {
      assert EndpointSetting(cfg) == Llm.LocalOllama;
      OllamaLacksLMStudioPort();
      OllamaLacksWebUIPort();
    } else if k == 1 {
      assert EndpointSetting(cfg) == "http://localhost:1234";
      LMStudioEndpointPort();
    } else if k == 2 {
      assert EndpointSetting(cfg) == "http://localhost:5000";
      WebUILacksLMStudioPort();
      WebUIEndpointPort();
    }
  }

  /** Choosing a preset with its own endpoint and saving makes the next dialog
      preselect that same preset. */
  lemma {:induction false} PresetRoundTrip(k: nat, d: Dialog, cfg: Config, file: Option<Config>)
    requires k < |BackendPresets| - 1
    ensures var r := ReadDialogConfig(PresetDialog(k, d), cfg);
      r.Ok? && DetectBackend(Loaded(AfterSave(file, r.value))) == k
  {
    SavedPresetSettings(k, d, cfg, file);
    FixedRowsStorable(k);
    var r := ReadDialogConfig(PresetDialog(k, d), cfg);
    var view := Loaded(AfterSave(file, r.value));
    assert ApiTypeSetting(view) == BackendPresets[k].apiType;
    assert OpenWebUISetting(view) == BackendPresets[k].isOpenWebUI;
    DetectsFixedRow(view, k);
  }

  // ---------------------------------------------------------------- edit budget

  /** int(get_config("edit_selection_max_new_tokens", 0)), falling back to 0 where int()
      raises, as the spreadsheet path does. */
  function EditAllowance(setting: Value): int {
    PyInt(setting).GetOr(0)
  }

  /** The max_tokens of an edit request: the length of the text being edited plus the
      allowance for new tokens. */
  function EditBudget(selection: string, setting: Value): (n: int)
    ensures PyInt(setting).Some? ==> n == |selection| + PyInt(setting).value
    ensures PyInt(setting).None? ==> n == |selection|
  {
    |selection| + EditAllowance(setting)
  }

  /** The text-document path as written: the raw setting is added to the length, so
      anything but an int or a bool raises TypeError. */
  function WriterEditBudget(selection: string, setting: Value): Result<int, string> {
    match setting
    case I(i) => Ok(|selection| + i)
    case B(b) => Ok(|selection| + if b then 1 else 0)
    case _ => Err("unsupported operand type(s) for +: 'int' and '" + TypeName(setting) + "'")
  }

  /** Where the text-document path does compute a budget, it is the coerced one. */
  lemma WriterBudgetAgrees(selection: string, setting: Value)
    ensures WriterEditBudget(selection, setting).Ok? <==> setting.I? || setting.B?
    ensures WriterEditBudget(selection, setting).Ok? ==> WriterEditBudget(selection, setting).value == EditBudget(selection, setting)
  {
  }

  /** An allowance stored as text, "50", breaks the text-document path, while the
      spreadsheet path reads it as 50. */
  lemma TextAllowanceBreaksWriterBudget(selection: string)
    ensures WriterEditBudget(selection, S("50")).Err?
    ensures EditBudget(selection, S("50")) == |selection| + 50
  {
    assert IsDigits("50");
    ParseIntDigits("50");
    assert DigitsValue("50") == 50 by {
      assert "50"[..1] == "5";
    }
  }

  /** An allowance read from the dialog is never negative, so the budget covers at least
      the text being edited. */
  lemma DialogBudgetCoversSelection(selection: string, d: Dialog, cfg: Config)
    requires ReadDialogConfig(d, cfg).Ok?
    ensures EditBudget(selection, ReadDialogConfig(d, cfg).value["edit_selection_max_new_tokens"]) >= |selection|
  {
    DialogFieldsRead(d, cfg);
  }

  // ---------------------------------------------------------------- numeric fields

  /** str.isdigit() for one character, as far as this model goes: the ASCII digits and
      the superscripts one, two and three, which Python also counts as digits. */
  predicate IsPyDigitChar(c: char) {
    IsDigit(c) || c == '¹' || c == '²' || c == '³'
  }

  predicate IsPyDigits(text: string) {
    text != [] && forall i :: 0 <= i < |text| ==> IsPyDigitChar(text[i])
  }

  /** The numeric-field rule as written: str.isdigit() admits superscript digits, which
      int() then rejects with ValueError. */
  function ReadNumberAsWritten(text: string): Result<int, string> {
    if IsPyDigits(text) then
      match ParseInt(text)
      case Some(n) => Ok(n)
      case None => Err("invalid literal for int() with base 10: '" + text + "'")
    else Ok(0)
  }

  /** "²" passes the isdigit() guard and makes reading the dialog raise, where the
      evident intent is 0. */
  lemma SuperscriptBreaksNumericField()
    ensures ReadNumberAsWritten("²").Err?
    ensures ReadNumber("²") == 0
  {
    assert !IsDigits("²");
    assert !IsSpace('²');
    assert Trimmed("²");
    ParseIntTrimmed("²");
  }

  /** Wherever the rule as written yields a number, it is the number ReadNumber gives. */
  lemma ReadNumberAgrees(text: string)
    ensures ReadNumberAsWritten(text).Ok? ==> ReadNumberAsWritten(text).value == ReadNumber(text)
  {
    if IsPyDigits(text) && !IsDigits(text) {
      SuperscriptNotParsed(text);
    }
  }

  /** Text that isdigit() accepts but that holds a superscript digit makes int() raise. */
  lemma SuperscriptNotParsed(text: string)
    requires IsPyDigits(text) && !IsDigits(text)
    ensures ParseInt(text).None?
  {
    var i :| 0 <= i < |text| && !IsDigit(text[i]);
    assert text[i] != '_';
    PyDigitsTrimmed(text);
    ParseIntTrimmed(text);
    assert text[0] != '-' && text[0] != '+';
    assert !IsGroupedDigits(text);
  }

  lemma PyDigitsTrimmed(text: string)
    requires IsPyDigits(text)
    ensures Trimmed(text)
  {
    assert IsPyDigitChar(text[0]) && IsPyDigitChar(text[|text| - 1]);
  }
}
