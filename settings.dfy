/** The Gemini API key settings (SettingsPage.tsx): the key is kept in browser storage
    XOR-obfuscated, one UTF-16 code unit at a time, against a fixed or configured key. */
module Settings {
  import opened Wrappers

  /** A JavaScript string is a sequence of UTF-16 code units; `charCodeAt` and
      `String.fromCharCode` work on these units, not on code points. */
  type CodeUnit = bv16
  type JsString = seq<CodeUnit>

  /** The storage key under which the obfuscated API key lives. */
  const StorageKey: string := "gemini_api_key"

  /** The fallback obfuscation key 'gmchajkhsakdh', as code units. */
  const DefaultXorKey: JsString :=
    [0x67, 0x6D, 0x63, 0x68, 0x61, 0x6A, 0x6B, 0x68, 0x73, 0x61, 0x6B, 0x64, 0x68]

  /** `process.env.NEXT_PUBLIC_XOR_KEY || 'gmchajkhsakdh'`: an absent or empty configured key
      falls back to the default, so the key is never empty. */
  function ObfuscationKey(env: Option<JsString>): (k: JsString)
    ensures |k| > 0
    ensures env.Some? && env.value != [] ==> k == env.value
    ensures env.None? || env.value == [] ==> k == DefaultXorKey
  {
    if env.Some? && env.value != [] then env.value else DefaultXorKey
  }

  /** Reference definition of the obfuscation: unit i is XORed with key unit i mod the key length. */
  function Obfuscate(s: JsString, key: JsString): JsString
    requires |key| > 0
  {
    seq(|s|, i requires 0 <= i < |s| => s[i] ^ key[i % |key|])
  }

  /** `xorObfuscate`: builds the result one code unit at a time. */
  method XorObfuscate(str: JsString, env: Option<JsString>) returns (result: JsString)
    ensures |result| == |str|
    ensures forall i :: 0 <= i < |str| ==>
              result[i] == str[i] ^ ObfuscationKey(env)[i % |ObfuscationKey(env)|]
    ensures result == Obfuscate(str, ObfuscationKey(env))
  {
    var key := ObfuscationKey(env);
    result := [];
    var i := 0;
    while i < |str|
      invariant 0 <= i <= |str|
      invariant |result| == i
      invariant forall j :: 0 <= j < i ==> result[j] == str[j] ^ key[j % |key|]
    {
      result := result + [str[i] ^ key[i % |key|]];
      i := i + 1;
    }
  }

  /** Obfuscating twice with the same key gives the original string back. */
  lemma {:induction false} ObfuscateInvolution(s: JsString, key: JsString)
    requires |key| > 0
    ensures |Obfuscate(s, key)| == |s|
    ensures Obfuscate(Obfuscate(s, key), key) == s
  {
    var o := Obfuscate(s, key);
    forall i | 0 <= i < |s|
      ensures Obfuscate(o, key)[i] == s[i]
    {
      XorCancels(s[i], key[i % |key|]);
    }
  }

  lemma XorCancels(x: CodeUnit, y: CodeUnit)
    ensures (x ^ y) ^ y == x
  {
  }

  /** `getGeminiApiKey`: "" when nothing (or an empty string) is stored, otherwise the
      de-obfuscated stored value. */
  function GetGeminiApiKey(items: map<string, JsString>, env: Option<JsString>): JsString {
    if StorageKey !in items || items[StorageKey] == [] then []
    else Obfuscate(items[StorageKey], ObfuscationKey(env))
  }

  /** `hasGeminiApiKey`: whether a non-empty obfuscated string is stored. */
  predicate HasGeminiApiKey(items: map<string, JsString>) {
    StorageKey in items && items[StorageKey] != []
  }

  /** A key is reported present exactly when reading it gives a non-empty key. */
  lemma HasIffKeyNonEmpty(items: map<string, JsString>, env: Option<JsString>)
    ensures HasGeminiApiKey(items) <==> GetGeminiApiKey(items, env) != []
  {
    if HasGeminiApiKey(items) {
      assert |GetGeminiApiKey(items, env)| == |items[StorageKey]| > 0;
    }
  }

  /** Saving key k and reading it back returns k, for every k including the empty key. */
  lemma SaveThenGet(items: map<string, JsString>, env: Option<JsString>, k: JsString)
    ensures GetGeminiApiKey(items[StorageKey := Obfuscate(k, ObfuscationKey(env))], env) == k
  {
    ObfuscateInvolution(k, ObfuscationKey(env));
  }

  /** After saving key k a key is reported present exactly when k is non-empty. */
  lemma HasAfterSave(items: map<string, JsString>, env: Option<JsString>, k: JsString)
    ensures HasGeminiApiKey(items[StorageKey := Obfuscate(k, ObfuscationKey(env))]) <==> k != []
  {
    ObfuscateInvolution(k, ObfuscationKey(env));
  }

  /** After removal the key reads as "" and is reported absent. */
  lemma RemoveThenGet(items: map<string, JsString>, env: Option<JsString>)
    ensures GetGeminiApiKey(items - {StorageKey}, env) == []
    ensures !HasGeminiApiKey(items - {StorageKey})
  {
  }

  /** The settings page: the browser storage it writes, and the API key text box. */
  class ApiKeySettings {
    var items: map<string, JsString>
    var apiKey: JsString
    const env: Option<JsString>

    /** Mounting the page loads the stored key, de-obfuscated, into the text box when a
        non-empty value is stored. */
    constructor(items0: map<string, JsString>, env0: Option<JsString>)
      ensures items == items0 && env == env0
      ensures apiKey == GetGeminiApiKey(items0, env0)
    {
      var loaded: JsString := [];
      if StorageKey in items0 && items0[StorageKey] != [] {
        loaded := XorObfuscate(items0[StorageKey], env0);
      }
      items := items0;
      env := env0;
      apiKey := loaded;
    }

    /** `handleApiKeyChange`: the text box takes the typed value; storage is untouched. */
    method HandleApiKeyChange(value: JsString)
      modifies this
      ensures apiKey == value && items == old(items)
    {
      apiKey := value;
    }

    /** `handleApiKeySave`: stores the obfuscated text-box value, which then reads back as the
        text-box value. */
    method HandleApiKeySave()
      modifies this
      ensures items == old(items)[StorageKey := Obfuscate(old(apiKey), ObfuscationKey(env))]
      ensures apiKey == old(apiKey)
      ensures GetGeminiApiKey(items, env) == apiKey
      ensures HasGeminiApiKey(items) <==> apiKey != []
    {
      var obfuscated := XorObfuscate(apiKey, env);
      items := items[StorageKey := obfuscated];
      SaveThenGet(old(items), env, apiKey);
      HasAfterSave(old(items), env, apiKey);
    }

    /** `handleApiKeyRemove`: deletes the stored key and clears the text box. */
    method HandleApiKeyRemove()
      modifies this
      ensures items == old(items) - {StorageKey}
      ensures apiKey == []
      ensures GetGeminiApiKey(items, env) == [] && !HasGeminiApiKey(items)
    {
      items := items - {StorageKey};
      apiKey := [];
    }
  }
}
