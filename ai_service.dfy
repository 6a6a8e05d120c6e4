/** The completion client's settings and provider registry: the current settings record, the
    three OpenAI-compatible providers with their endpoints and models, settings merging, the
    request payload and headers, and settings validation. */
module AiService {
  import opened Wrappers
  import opened Text
  import opened Assoc
  import opened Seqs
  import Storage

  /** `currentSettings`. The temperature is a floating-point number the model only copies. */
  datatype Settings = Settings(
    provider: string,
    model: string,
    apiKey: string,
    temperature: real,
    maxTokens: int,
    streamOutput: bool)

  const DefaultSettings := Settings("siliconflow", "deepseek-ai/DeepSeek-V2.5", "", 0.7, 2000, true)

  datatype ModelInfo = ModelInfo(id: string, name: string)

  datatype Provider = Provider(name: string, apiEndpoint: string, defaultModel: string, models: seq<ModelInfo>)

  /** `AIService.providers`, in declaration order. */
  function Providers(): Assoc<Provider> {
    [ ("siliconflow", Provider("硅基流动", "https://api.siliconflow.cn/v1/chat/completions",
        "deepseek-ai/DeepSeek-V2.5",
        [ ModelInfo("deepseek-ai/DeepSeek-V2.5", "DeepSeek-V2.5"),
          ModelInfo("deepseek-ai/DeepSeek-V3", "DeepSeek-V3"),
          ModelInfo("THUDM/glm-4-9b-chat", "GLM-4-9B"),
          ModelInfo("meta-llama/Llama-3.3-70B-Instruct", "Llama-3.3-70B"),
          ModelInfo("Qwen/Qwen2.5-72B-Instruct", "Qwen2.5-72B") ])),
      ("deepseek", Provider("深度求索", "https://api.deepseek.com/v1/chat/completions",
        "deepseek-chat",
        [ ModelInfo("deepseek-chat", "DeepSeek Chat"),
          ModelInfo("deepseek-reasoner", "DeepSeek Reasoner") ])),
      ("zhipu", Provider("智谱", "https://open.bigmodel.cn/api/paas/v4/chat/completions",
        "glm-4-plus",
        [ ModelInfo("glm-4-plus", "GLM-4-Plus"),
          ModelInfo("glm-4-air", "GLM-4-Air"),
          ModelInfo("glm-4-flash", "GLM-4-Flash") ])) ]
  }

  /** `providers[name]` is truthy. */
  predicate IsProvider(name: string) {
    name == "siliconflow" || name == "deepseek" || name == "zhipu"
  }

  /** The provider names are exactly the registry's keys, and each provider has an endpoint and
      at least one model, the first being its default model. */
  lemma {:induction false} IsProviderSpec(name: string)
    ensures IsProvider(name) <==> Get(Providers(), name).Some?
    ensures IsProvider(name) ==>
      var p := Get(Providers(), name).value;
      p.apiEndpoint != "" && |p.models| > 0 && p.models[0].id == p.defaultModel && p.defaultModel != ""
  {
    var ps := Providers();
    assert |ps| == 3 && ps[0].0 == "siliconflow" && ps[1].0 == "deepseek" && ps[2].0 == "zhipu";
    if name == "siliconflow" {
      assert Get(ps, name) == Some(ps[0].1);
    } else if name == "deepseek" {
      assert Get(ps[1..], name) == Some(ps[1].1);
    } else if name == "zhipu" {
      assert Get(ps[1..][1..], name) == Some(ps[2].1);
    } else {
      assert Get(ps[1..][1..][1..], name) == None;
    }
  }

  /** The registry is consistent: three distinct providers, and the default settings name a
      known provider and that provider's default model. */
  lemma {:induction false} RegistryWellFormed()
    ensures UniqueKeys(Providers()) && Keys(Providers()) == ["siliconflow", "deepseek", "zhipu"]
    ensures IsProvider(DefaultSettings.provider)
      && Get(Providers(), DefaultSettings.provider).value.defaultModel == DefaultSettings.model
  {
    var ps := Providers();
    assert |ps| == 3 && ps[0].0 == "siliconflow" && ps[1].0 == "deepseek" && ps[2].0 == "zhipu";
    assert |ps[0].0| == 11 && |ps[1].0| == 8 && |ps[2].0| == 5;
    assert Keys(ps) == ["siliconflow", "deepseek", "zhipu"];
    IsProviderSpec(DefaultSettings.provider);
  }

  /** `getModelsForProvider(name)`. */
  function ModelsForProvider(name: string): (ms: seq<ModelInfo>)
    ensures !IsProvider(name) ==> ms == []
    ensures IsProvider(name) ==> ms == Get(Providers(), name).value.models && |ms| > 0
  {
    IsProviderSpec(name);
    match Get(Providers(), name)
    case None => []
    case Some(p) => p.models
  }

  /** `getApiEndpoint()` for the given settings. */
  function ApiEndpoint(s: Settings): (url: string)
    ensures !IsProvider(s.provider) ==> url == ""
    ensures IsProvider(s.provider) ==> url == Get(Providers(), s.provider).value.apiEndpoint && url != ""
  {
    IsProviderSpec(s.provider);
    match Get(Providers(), s.provider)
    case None => ""
    case Some(p) => p.apiEndpoint
  }

  datatype Message = Message(role: string, content: string)

  /** The JSON body of a chat-completion request; the same for every provider. */
  datatype RequestData = RequestData(
    model: string,
    messages: seq<Message>,
    temperature: real,
    max_tokens: int,
    stream: bool)

  /** `buildRequestData(messages)`. */
  function BuildRequestData(s: Settings, messages: seq<Message>): (d: RequestData)
    ensures d.model == s.model && d.messages == messages && d.temperature == s.temperature
    ensures d.max_tokens == s.maxTokens && d.stream == s.streamOutput
  {
    RequestData(s.model, messages, s.temperature, s.maxTokens, s.streamOutput)
  }

  /** `getRequestHeaders()`, as a list of name/value pairs. */
  function RequestHeaders(s: Settings): (h: seq<(string, string)>)
    ensures |h| == 2 && h[0] == ("Content-Type", "application/json")
    ensures h[1].0 == "Authorization" && StartsWith(h[1].1, "Bearer ")
    ensures ReplaceFirst(h[1].1, "Bearer ", "") == s.apiKey
  {
    ReplaceFirstPrefix("Bearer ", s.apiKey);
    [("Content-Type", "application/json"), ("Authorization", "Bearer " + s.apiKey)]
  }

  /** `hasApiKey()`: the key is set and not blank, stated without `trim`; `HasApiKeySpec` shows
      it is the source's test that `apiKey.trim()` is not empty. */
  predicate HasApiKey(s: Settings) {
    !IsBlank(s.apiKey)
  }

  /** A key counts as set exactly when trimming it leaves something, that is, when it is not
      blank. */
  lemma {:induction false} HasApiKeySpec(s: Settings)
    ensures HasApiKey(s) <==> Trim(s.apiKey) != ""
    ensures HasApiKey(s) <==> !IsBlank(s.apiKey)
  {
    TrimEmptyIffBlank(s.apiKey);
  }

  const ErrNoKey := "API Key 未设置"
  const ErrBadProvider := "无效的供应商"
  const ErrNoModel := "模型未选择"

  datatype Validation = Validation(valid: bool, errors: seq<string>)

  /** Settings a request may be sent with. */
  predicate ValidSettings(s: Settings) {
    HasApiKey(s) && IsProvider(s.provider) && s.model != ""
  }

  /** The messages `validateSettings()` pushes, in the order it checks. */
  function ValidationErrors(s: Settings): seq<string> {
    (if !HasApiKey(s) then [ErrNoKey] else [])
    + (if !IsProvider(s.provider) then [ErrBadProvider] else [])
    + (if s.model == "" then [ErrNoModel] else [])
  }

  /** There is no error exactly when the settings are valid; each message is listed exactly
      when its check fails, and the messages come in the order key, provider, model. */
  lemma {:induction false} ValidationErrorsSpec(s: Settings)
    ensures ValidationErrors(s) == [] <==> ValidSettings(s)
    ensures ErrNoKey in ValidationErrors(s) <==> !HasApiKey(s)
    ensures ErrBadProvider in ValidationErrors(s) <==> !IsProvider(s.provider)
    ensures ErrNoModel in ValidationErrors(s) <==> s.model == ""
    ensures IsSubsequence(ValidationErrors(s), [ErrNoKey, ErrBadProvider, ErrNoModel])
  {
    assert ErrNoKey != ErrBadProvider && ErrNoKey != ErrNoModel && ErrBadProvider != ErrNoModel by {
      assert |ErrNoKey| == 11 && |ErrBadProvider| == 6 && |ErrNoModel| == 5;
    }
    PickedMembers(!HasApiKey(s), !IsProvider(s.provider), s.model == "", ErrNoKey, ErrBadProvider, ErrNoModel);
    PickedInOrder(!HasApiKey(s), !IsProvider(s.provider), s.model == "", ErrNoKey, ErrBadProvider, ErrNoModel);
  }

  /** `validateSettings()`: checks the key, the provider and the model, in that order, pushing a
      message for each check that fails. */
  method Validate(s: Settings) returns (result: Validation)
    ensures result.errors == ValidationErrors(s)
    ensures result.valid <==> ValidSettings(s)
  {
    ghost var a := if !HasApiKey(s) then [ErrNoKey] else [];
    ghost var b := if !IsProvider(s.provider) then [ErrBadProvider] else [];
    ghost var c := if s.model == "" then [ErrNoModel] else [];
    result := Validation(true, []);
    if !HasApiKey(s) {
      result := result.(valid := false, errors := result.errors + [ErrNoKey]);
    }
    assert result.errors == a by {
      assert [] + a == a;
    }
    if !IsProvider(s.provider) {
      result := result.(valid := false, errors := result.errors + [ErrBadProvider]);
    }
    assert result.errors == a + b by {
      assert a + [] == a;
    }
    if s.model == "" {
      result := result.(valid := false, errors := result.errors + [ErrNoModel]);
    }
    assert result.errors == a + b + c by {
      assert a + b + [] == a + b;
    }
  }

  /** Keeping some of three distinct elements keeps each exactly when its flag is set. */
  lemma {:induction false} PickedMembers<T>(a: bool, b: bool, c: bool, x: T, y: T, z: T)
    requires x != y && x != z && y != z
    ensures var picked := (if a then [x] else []) + (if b then [y] else []) + (if c then [z] else []);
      && (x in picked <==> a) && (y in picked <==> b) && (z in picked <==> c)
      && (picked == [] <==> !a && !b && !c)
  {
  }

  /** Keeping some of three elements keeps them in order. */
  lemma {:induction false} PickedInOrder<T>(a: bool, b: bool, c: bool, x: T, y: T, z: T)
    ensures IsSubsequence((if a then [x] else []) + (if b then [y] else []) + (if c then [z] else []), [x, y, z])
  {
    var yz := (if b then [y] else []) + (if c then [z] else []);
    assert IsSubsequence(if c then [z] else [], [z]) by {
      assert [z][1..] == [];
    }
    assert IsSubsequence(yz, [y, z]) by {
      assert [y, z][1..] == [z];
      if b {
        assert yz[1..] == if c then [z] else [];
      } else {
        SubsequenceTail([y] + yz, [y, z]);
      }
    }
    var xyz := (if a then [x] else []) + yz;
    assert [x, y, z][1..] == [y, z];
    if a {
      assert xyz[1..] == yz;
    } else {
      assert xyz == yz && ([x] + xyz)[1..] == xyz;
      assert IsSubsequence([x] + xyz, [x, y, z]);
      SubsequenceTail([x] + xyz, [x, y, z]);
    }
  }

  /** A partial settings object, as passed to `updateSettings` or read back from storage:
      `None` for an absent field. */
  datatype SettingsPatch = SettingsPatch(
    provider: Option<string>,
    model: Option<string>,
    apiKey: Option<string>,
    temperature: Option<real>,
    maxTokens: Option<int>,
    streamOutput: Option<bool>)

  const EmptyPatch := SettingsPatch(None, None, None, None, None, None)

  /** The patch holding every field of `s`: what `saveSettings` writes. */
  function FullPatch(s: Settings): SettingsPatch {
    SettingsPatch(Some(s.provider), Some(s.model), Some(s.apiKey), Some(s.temperature),
      Some(s.maxTokens), Some(s.streamOutput))
  }

  /** `{...s, ...p}`. */
  function Merge(s: Settings, p: SettingsPatch): Settings {
    Settings(p.provider.GetOr(s.provider), p.model.GetOr(s.model), p.apiKey.GetOr(s.apiKey),
      p.temperature.GetOr(s.temperature), p.maxTokens.GetOr(s.maxTokens),
      p.streamOutput.GetOr(s.streamOutput))
  }

  /** A merge overrides exactly the fields the patch names, each field on its own: every field
      takes the patch's value when the patch names it and keeps its value otherwise. The empty
      patch changes nothing, merging twice is merging once, and merging saved settings restores
      them. */
  lemma {:induction false} MergeSpec(s: Settings, p: SettingsPatch, t: Settings)
    ensures var m := Merge(s, p);
      && Takes(p.provider, s.provider, m.provider)
      && Takes(p.model, s.model, m.model)
      && Takes(p.apiKey, s.apiKey, m.apiKey)
      && Takes(p.temperature, s.temperature, m.temperature)
      && Takes(p.maxTokens, s.maxTokens, m.maxTokens)
      && Takes(p.streamOutput, s.streamOutput, m.streamOutput)
    ensures Merge(s, EmptyPatch) == s
    ensures Merge(Merge(s, p), p) == Merge(s, p)
    ensures Merge(s, FullPatch(t)) == t
  {
    MergeLaws(s, p, t);
  }

  lemma {:induction false} MergeLaws(s: Settings, p: SettingsPatch, t: Settings)
    ensures Merge(s, EmptyPatch) == s
    ensures Merge(Merge(s, p), p) == Merge(s, p)
    ensures Merge(s, FullPatch(t)) == t
  {
  }

  /** `loadSettings()`: the saved object, if any, merged over the current settings. */
  function Loaded(s: Settings, saved: Option<SettingsPatch>): Settings {
    match saved
    case None => s
    case Some(p) => Merge(s, p)
  }

  /** The current settings once `init()` has run. */
  function AfterInit(isInitialized: bool, s: Settings, saved: Option<SettingsPatch>): Settings {
    if isInitialized then s else Loaded(s, saved)
  }

  /** `getApiKey(provider)`: the key in the settings for the current provider (even when it is
      empty), otherwise the key the storage service holds. */
  function KeyFor(s: Settings, stored: map<string, string>, provider: string): (k: Option<string>)
    ensures provider == s.provider ==> k == Some(s.apiKey)
    ensures provider != s.provider ==> k == Storage.ApiKeyOf(stored, provider)
  {
    if provider == s.provider then Some(s.apiKey) else Storage.ApiKeyOf(stored, provider)
  }

  /** The patch `switchProvider(provider, model)` applies. */
  function SwitchPatch(s: Settings, stored: map<string, string>, provider: string, model: string): SettingsPatch
    requires IsProvider(provider)
  {
    var newModel := if model != "" then model else Get(Providers(), provider).value.defaultModel;
    var apiKey := KeyFor(s, stored, provider).GetOr("");
    EmptyPatch.(provider := Some(provider), model := Some(newModel), apiKey := Some(apiKey))
  }

  /** Switching provider keeps the temperature, token limit and stream flag, selects the given
      model or else the provider's default (which is one of its models), and takes that provider's
      key; a switch to a provider whose key is set gives settings that validate. */
  lemma {:induction false} SwitchPatchSpec(s: Settings, stored: map<string, string>, provider: string, model: string)
    requires IsProvider(provider)
    ensures var t := Merge(s, SwitchPatch(s, stored, provider, model));
      && t.provider == provider
      && t.temperature == s.temperature && t.maxTokens == s.maxTokens && t.streamOutput == s.streamOutput
      && (model != "" ==> t.model == model)
      && (model == "" ==> exists m :: 0 <= m < |ModelsForProvider(provider)| && ModelsForProvider(provider)[m].id == t.model)
      && t.apiKey == KeyFor(s, stored, provider).GetOr("")
      && (provider != s.provider && Storage.ApiKeyOf(stored, provider).None? ==> t.apiKey == "")
      && (!IsBlank(t.apiKey) ==> ValidSettings(t))
  {
    var t := Merge(s, SwitchPatch(s, stored, provider, model));
    IsProviderSpec(provider);
    if model == "" {
      assert ModelsForProvider(provider)[0].id == t.model;
    }
    HasApiKeySpec(t);
  }

  /** The completion client's static state: `currentSettings`, `isInitialized`, and what the
      `indienstein_ai_settings` storage entry holds. */
  class AIService {
    var currentSettings: Settings
    var isInitialized: bool
    var saved: Option<SettingsPatch>

    /** The class as loaded, over a storage entry holding `saved`. */
    constructor(saved: Option<SettingsPatch>)
      ensures currentSettings == DefaultSettings && !isInitialized && this.saved == saved
    {
      currentSettings := DefaultSettings;
      isInitialized := false;
      this.saved := saved;
    }

    /** `init()`: loads the saved settings the first time only. */
    method Init()
      modifies this
      ensures isInitialized && saved == old(saved)
      ensures currentSettings == AfterInit(old(isInitialized), old(currentSettings), old(saved))
    {
      if isInitialized {
        return;
      }
      if saved.Some? {
        currentSettings := Merge(currentSettings, saved.value);
      }
      isInitialized := true;
    }

    /** `updateSettings(settings)`: merges the patch and saves the result. */
    method UpdateSettings(patch: SettingsPatch)
      modifies this
      ensures isInitialized
      ensures currentSettings == Merge(AfterInit(old(isInitialized), old(currentSettings), old(saved)), patch)
      ensures saved == Some(FullPatch(currentSettings))
    {
      Init();
      currentSettings := Merge(currentSettings, patch);
      saved := Some(FullPatch(currentSettings));
    }

    /** `validateSettings()` on the current settings. */
    method ValidateSettings() returns (result: Validation)
      modifies this
      ensures isInitialized && saved == old(saved)
      ensures currentSettings == AfterInit(old(isInitialized), old(currentSettings), old(saved))
      ensures result.valid <==> ValidSettings(currentSettings)
      ensures result.errors == ValidationErrors(currentSettings)
    {
      Init();
      result := Validate(currentSettings);
    }

    /** `getApiKey(provider)`; `store` is the storage service it falls back to. */
    method GetApiKey(provider: string, store: Storage.StorageService) returns (key: Option<string>)
      modifies this
      ensures isInitialized && saved == old(saved)
      ensures currentSettings == AfterInit(old(isInitialized), old(currentSettings), old(saved))
      ensures key == KeyFor(currentSettings, store.apiKeys, provider)
    {
      Init();
      if provider == currentSettings.provider {
        return Some(currentSettings.apiKey);
      }
      key := store.GetApiKey(provider);
    }

    /** `switchProvider(provider, model)`, `""` standing for an absent model; the result is the
        message of the exception thrown for an unknown provider. */
    method SwitchProvider(provider: string, model: string, store: Storage.StorageService) returns (error: Option<string>)
      modifies this
      ensures isInitialized
      ensures !IsProvider(provider) ==>
        && error == Some("不支持的供应商: " + provider)
        && currentSettings == AfterInit(old(isInitialized), old(currentSettings), old(saved))
        && saved == old(saved)
      ensures IsProvider(provider) ==>
        var s := AfterInit(old(isInitialized), old(currentSettings), old(saved));
        && error.None?
        && currentSettings == Merge(s, SwitchPatch(s, store.apiKeys, provider, model))
        && saved == Some(FullPatch(currentSettings))
    {
      Init();
      var config := Get(Providers(), provider);
      if config.None? {
        return Some("不支持的供应商: " + provider);
      }
      var newModel := if model != "" then model else config.value.defaultModel;
      var key := GetApiKey(provider, store);
      var apiKey := key.GetOr("");
      UpdateSettings(EmptyPatch.(provider := Some(provider), model := Some(newModel), apiKey := Some(apiKey)));
      error := None;
    }

    /** `resetSettings()`: the defaults, and the saved entry removed. */
    method ResetSettings()
      modifies this
      ensures currentSettings == DefaultSettings && saved.None? && isInitialized == old(isInitialized)
    {
      currentSettings := DefaultSettings;
      saved := None;
    }
  }
}
