/** The dashboard's API-key panel: how a stored key is shown, the connection test's verdict, and
    the save, clear and test actions on the storage service. Dialogs and notifications are
    reduced to the answers and decisions they carry. */
module Dashboard {
  import opened Wrappers
  import opened Text
  import opened Assoc
  import opened AiService
  import Storage

  /** `` `${apiKey.substring(0, 8)}...${apiKey.substring(apiKey.length - 4)}` ``. */
  function Mask(apiKey: string): string {
    Substring(apiKey, 0, 8) + "..." + Substring(apiKey, |apiKey| - 4, |apiKey|)
  }

  function Min(a: int, b: int): int {
    if a < b then a else b
  }

  function Max(a: int, b: int): int {
    if a < b then b else a
  }

  /** The masked key shows the first eight and the last four characters (the whole key, in
      overlapping parts, when it is shorter), around `...`; a key of twelve characters or more
      shows exactly fifteen characters and hides everything between those ends. */
  lemma {:induction false} MaskSpec(apiKey: string)
    ensures Mask(apiKey) == apiKey[..Min(8, |apiKey|)] + "..." + apiKey[Max(0, |apiKey| - 4)..]
    ensures |apiKey| >= 12 ==>
      && Mask(apiKey) == apiKey[..8] + "..." + apiKey[|apiKey| - 4..]
      && |Mask(apiKey)| == 15
  {
    assert apiKey[Max(0, |apiKey| - 4)..|apiKey|] == apiKey[Max(0, |apiKey| - 4)..];
  }

  /** The text shown for a provider's stored key: masked, or `''` when none is configured. */
  function DisplayedKey(apiKey: Option<string>): (shown: string)
    ensures apiKey.None? <==> shown == ""
  {
    match apiKey
    case None => ""
    case Some(k) => Mask(k)
  }

  /** `getDefaultModel(provider)`: the dashboard's own table, `'default'` for any other name. */
  function DefaultModel(provider: string): (model: string)
    ensures !IsProvider(provider) <==> model == "default"
    ensures IsProvider(provider) ==> model != ""
  {
    if provider == "siliconflow" then "deepseek-ai/DeepSeek-V3"
    else if provider == "deepseek" then "deepseek-chat"
    else if provider == "zhipu" then "glm-4"
    else "default"
  }

  /** `getProviderDisplayName(provider)`: the provider's name, or the id itself. */
  function DisplayName(provider: string): (name: string)
    ensures !IsProvider(provider) ==> name == provider
  {
    if provider == "siliconflow" then "硅基流动"
    else if provider == "deepseek" then "深度求索"
    else if provider == "zhipu" then "智谱"
    else provider
  }

  /** The dashboard names each provider as the completion client's registry does. */
  lemma {:induction false} DisplayNameAgrees(provider: string)
    requires IsProvider(provider)
    ensures DisplayName(provider) == Get(Providers(), provider).value.name
  {
    var ps := Providers();
    assert |ps| == 3 && ps[0].0 == "siliconflow" && ps[1].0 == "deepseek" && ps[2].0 == "zhipu";
    if provider == "siliconflow" {
      assert Get(ps, provider) == Some(ps[0].1);
    } else if provider == "deepseek" {
      assert Get(ps[1..], provider) == Some(ps[1].1);
    } else {
      assert Get(ps[1..][1..], provider) == Some(ps[2].1);
    }
  }

  /** What the optional AI probe of the connection test does: the service has no
      `requestLLM_Stream` (the case of the completion client as shipped), or the call returns,
      or it throws with a message. */
  datatype Probe = NoStreamMethod | ProbeReturned | ProbeThrew(message: string)

  /** `{ success, error }`. */
  datatype TestResult = Success | Failure(error: string)

  const BadFormat := "API Key格式无效"
  const Expired := "API Key无效或过期"

  /** `performConnectionTest(provider, apiKey)`. */
  function ConnectionTest(apiKey: string, probe: Probe): TestResult {
    if |apiKey| < 10 then Failure(BadFormat)
    else
      match probe
      case ProbeThrew(m) =>
        if Includes(m, "401") || Includes(m, "Unauthorized") then Failure(Expired) else Success
      case _ => Success
  }

  /** A key shorter than ten characters fails as malformed; a probe error naming `401` or
      `Unauthorized` fails as an expired key; every other outcome, any other probe error
      included, is a success. Without the probe method only the length decides. */
  lemma {:induction false} ConnectionTestSpec(apiKey: string, probe: Probe)
    ensures ConnectionTest(apiKey, probe) == Failure(BadFormat) <==> |apiKey| < 10
    ensures ConnectionTest(apiKey, probe) == Failure(Expired) <==>
      |apiKey| >= 10 && probe.ProbeThrew? && (Includes(probe.message, "401") || Includes(probe.message, "Unauthorized"))
    ensures ConnectionTest(apiKey, probe).Success? || ConnectionTest(apiKey, probe) in {Failure(BadFormat), Failure(Expired)}
    ensures ConnectionTest(apiKey, NoStreamMethod).Success? <==> |apiKey| >= 10
  {
    assert BadFormat != Expired by {
      assert BadFormat[8] != Expired[8];
    }
  }

  /** The storage key `clearApiKey` removes. */
  function LegacyKeyName(provider: string): string {
    "indienstein_api_key_" + provider
  }

  /** A provider's legacy key is none of the keys the storage service keeps its data under. */
  lemma {:induction false} LegacyKeyIsNotAServiceKey(provider: string)
    ensures LegacyKeyName(provider) != Storage.ApiKeysKey
    ensures LegacyKeyName(provider) != Storage.InspirationsKey
    ensures LegacyKeyName(provider) != Storage.SettingsKey
  {
    var k := LegacyKeyName(provider);
    assert Storage.ApiKeysKey[19] == 's' && |Storage.ApiKeysKey| == 20;
    if |k| == 20 {
      assert k[19] == '_';
    }
    assert k[12] == 'a' && Storage.InspirationsKey[12] == 'i' && Storage.SettingsKey[12] == 's';
  }

  class DashboardModule {
    const store: Storage.StorageService

    constructor(store: Storage.StorageService)
      ensures this.store == store
    {
      this.store := store;
    }

    /** The key text shown on a provider's card. */
    function ShownKey(provider: string): string
      reads store
    {
      DisplayedKey(store.GetApiKey(provider))
    }

    /** `saveApiKey(provider)`; `input` is the text of the provider's key field, if the field
        exists. A blank entry saves nothing; otherwise the trimmed entry becomes the provider's
        key. */
    method SaveApiKey(provider: string, input: Option<string>) returns (saved: bool)
      modifies store
      ensures saved <==> input.Some? && Trim(input.value) != ""
      ensures saved ==> store.apiKeys == old(store.apiKeys)[provider := Trim(input.value)]
      ensures saved ==> store.GetApiKey(provider) == Some(Trim(input.value))
      ensures !saved ==> store.apiKeys == old(store.apiKeys)
      ensures store.inspirations == old(store.inspirations) && store.settings == old(store.settings)
      ensures store.items == old(store.items)
    {
      if input.None? {
        return false;
      }
      var apiKey := Trim(input.value);
      if apiKey == "" {
        return false;
      }
      store.SaveApiKey(provider, apiKey);
      saved := true;
    }

    /** `clearApiKey(provider)`; `answer` is the confirmation dialog's. The entry removed is
        `indienstein_api_key_<provider>`, which is not where keys are kept, so the provider's
        stored key is still there afterwards. */
    method ClearApiKey(provider: string, answer: bool)
      modifies store
      ensures store.apiKeys == old(store.apiKeys)
      ensures store.GetApiKey(provider) == old(store.GetApiKey(provider))
      ensures answer ==> store.items == old(store.items) - {LegacyKeyName(provider)}
      ensures !answer ==> store.items == old(store.items)
      ensures store.inspirations == old(store.inspirations) && store.settings == old(store.settings)
    {
      if !answer {
        return;
      }
      LegacyKeyIsNotAServiceKey(provider);
      store.RemoveItem(LegacyKeyName(provider));
    }

    /** `clearApiKey` removing the provider's entry of the key map, as its notification
        announces: afterwards the provider has no key and the others keep theirs. */
    method ClearApiKeyIntended(provider: string, answer: bool)
      modifies store
      ensures answer ==> store.GetApiKey(provider).None?
      ensures answer ==> forall q :: q != provider ==> store.GetApiKey(q) == old(store.GetApiKey(q))
      ensures !answer ==> store.apiKeys == old(store.apiKeys)
      ensures store.inspirations == old(store.inspirations) && store.settings == old(store.settings)
      ensures store.items == old(store.items)
    {
      if !answer {
        return;
      }
      var _ := store.RemoveApiKey(provider);
      forall q | q != provider
        ensures store.GetApiKey(q) == old(store.GetApiKey(q))
      {
        Storage.WithoutApiKeySpec(old(store.apiKeys), provider, q);
      }
      Storage.WithoutApiKeySpec(old(store.apiKeys), provider, provider);
    }

    /** `testConnection(provider)`: no test without a stored key; otherwise the verdict of
        `performConnectionTest` on the stored key. */
    method TestConnection(provider: string, probe: Probe) returns (result: Option<TestResult>)
      ensures store.GetApiKey(provider).None? ==> result.None?
      ensures store.GetApiKey(provider).Some? ==>
        result == Some(ConnectionTest(store.GetApiKey(provider).value, probe))
    {
      var apiKey := store.GetApiKey(provider);
      if apiKey.None? {
        return None;
      }
      result := Some(ConnectionTest(apiKey.value, probe));
    }
  }
}
