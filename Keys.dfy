/** API-key storage and the persisted provider and model selection
    (`APIKeyManager`). The keychain and the user defaults are modelled as
    maps from entry names to strings; keychain access errors are not
    modelled. */
module Keys {
  import opened Text
  import opened Models

  const SelectedProviderKey: string := "selectedProvider"
  const SelectedModelKey: string := "selectedModel"

  /** The keychain entry holding a provider's key: its raw name in lower
      case. */
  function KeyIdentifier(p: ProviderType): (r: string)
    ensures |r| == |RawValue(p)|
    ensures forall i :: 0 <= i < |r| ==> !IsAsciiUpper(r[i]) && r[i] == LowerChar(RawValue(p)[i])
  {
    Lower(RawValue(p))
  }

  /** The only provider's key lives under "openai". */
  lemma OpenAIKeyIdentifier()
    ensures KeyIdentifier(OpenAI) == "openai"
  {
    var r := KeyIdentifier(OpenAI);
    assert r[0] == LowerChar('O') == 'o';
    assert r[4] == LowerChar('A') == 'a';
    assert r[5] == LowerChar('I') == 'i';
  }

  /** The provider a stored selection names, defaulting to OpenAI when none
      is stored or the stored name is not a provider. */
  function SelectedProviderOf(defaults: map<string, string>): (r: ProviderType)
    ensures SelectedProviderKey in defaults && ProviderFromRaw(defaults[SelectedProviderKey]).Some? ==>
      r == ProviderFromRaw(defaults[SelectedProviderKey]).value
    ensures SelectedProviderKey in defaults && ProviderFromRaw(defaults[SelectedProviderKey]).None? ==> r == OpenAI
    ensures SelectedProviderKey !in defaults ==> r == OpenAI
  {
    if SelectedProviderKey in defaults && ProviderFromRaw(defaults[SelectedProviderKey]).Some?
    then ProviderFromRaw(defaults[SelectedProviderKey]).value
    else OpenAI
  }

  /** The stored model, defaulting to the selected provider's first REST
      model (or the empty string if it had none). */
  function SelectedModelOf(defaults: map<string, string>): (r: string)
    ensures SelectedModelKey in defaults ==> r == defaults[SelectedModelKey]
    ensures SelectedModelKey !in defaults && RestModels(SelectedProviderOf(defaults)) != [] ==>
      r == RestModels(SelectedProviderOf(defaults))[0]
  {
    if SelectedModelKey in defaults then defaults[SelectedModelKey]
    else if RestModels(SelectedProviderOf(defaults)) != [] then RestModels(SelectedProviderOf(defaults))[0]
    else ""
  }

  /** With nothing stored, the selection is OpenAI with its first REST
      model. */
  lemma DefaultSelection(defaults: map<string, string>)
    requires SelectedProviderKey !in defaults && SelectedModelKey !in defaults
    ensures SelectedProviderOf(defaults) == OpenAI
    ensures SelectedModelOf(defaults) == "whisper-1"
  {
  }

  /** Selecting a provider is remembered. */
  lemma SelectionRoundTrip(defaults: map<string, string>, p: ProviderType)
    ensures SelectedProviderOf(defaults[SelectedProviderKey := RawValue(p)]) == p
  {
    RawValueRoundTrip(p);
  }

  /** `r` is `ps` with some elements left out, the rest kept in order. */
  predicate SubsequenceOf<T(==)>(r: seq<T>, ps: seq<T>) {
    r == [] || (ps != [] && if r[0] == ps[0] then SubsequenceOf(r[1..], ps[1..]) else SubsequenceOf(r, ps[1..]))
  }

  class APIKeyManager {
    var keychain: map<string, string>
    var defaults: map<string, string>
    /** Bumped after every change to the stored keys. */
    var keysUpdated: nat

    constructor (keychain: map<string, string>, defaults: map<string, string>)
      ensures this.keychain == keychain && this.defaults == defaults && keysUpdated == 0
    {
      this.keychain := keychain;
      this.defaults := defaults;
      keysUpdated := 0;
    }

    /** Stores `key` for `p`, replacing any earlier key. */
    method StoreAPIKey(key: string, p: ProviderType)
      modifies this`keychain, this`keysUpdated
      ensures keychain == old(keychain)[KeyIdentifier(p) := key]
      ensures keysUpdated == old(keysUpdated) + 1
    {
      keychain := keychain[KeyIdentifier(p) := key];
      keysUpdated := keysUpdated + 1;
    }

    function GetAPIKey(p: ProviderType): (r: Option<string>)
      reads this
      ensures r.Some? <==> KeyIdentifier(p) in keychain
      ensures r.Some? ==> r.value == keychain[KeyIdentifier(p)]
    {
      if KeyIdentifier(p) in keychain then Some(keychain[KeyIdentifier(p)]) else None
    }

    method DeleteAPIKey(p: ProviderType)
      modifies this`keychain, this`keysUpdated
      ensures keychain == old(keychain) - {KeyIdentifier(p)}
      ensures keysUpdated == old(keysUpdated) + 1
    {
      keychain := keychain - {KeyIdentifier(p)};
      keysUpdated := keysUpdated + 1;
    }

    predicate HasAPIKey(p: ProviderType)
      reads this
      ensures HasAPIKey(p) <==> KeyIdentifier(p) in keychain
    {
      GetAPIKey(p).Some?
    }

    function SelectedProvider(): ProviderType
      reads this
    {
      SelectedProviderOf(defaults)
    }

    function SelectedModel(): string
      reads this
    {
      SelectedModelOf(defaults)
    }

    /** The key of the selected provider. */
    function GetCurrentAPIKey(): (r: Option<string>)
      reads this
      ensures r.Some? <==> HasAPIKey(SelectedProvider())
    {
      GetAPIKey(SelectedProvider())
    }

    /** The providers with a stored key, in catalogue order. */
    function ConfiguredProviders(): (r: seq<ProviderType>)
      reads this
      ensures forall p :: p in r <==> HasAPIKey(p)
      ensures SubsequenceOf(r, AllProviders())
    {
      var all := AllProviders();
      var r := Filter(all);
      assert forall p :: p in r <==> p in all && HasAPIKey(p);
      r
    }

    function Filter(ps: seq<ProviderType>): (r: seq<ProviderType>)
      reads this
      ensures forall p :: p in r <==> p in ps && HasAPIKey(p)
      ensures SubsequenceOf(r, ps)
    {
      if ps == [] then []
      else (if HasAPIKey(ps[0]) then [ps[0]] else []) + Filter(ps[1..])
    }

    method SetSelectedProvider(p: ProviderType)
      modifies this`defaults
      ensures defaults == old(defaults)[SelectedProviderKey := RawValue(p)]
      ensures SelectedProvider() == p
    {
      defaults := defaults[SelectedProviderKey := RawValue(p)];
      SelectionRoundTrip(old(defaults), p);
    }

    method SetSelectedModel(m: string)
      modifies this`defaults
      ensures defaults == old(defaults)[SelectedModelKey := m]
      ensures SelectedModel() == m
    {
      defaults := defaults[SelectedModelKey := m];
    }
  }

  /** A stored key is found again, and a deleted one is gone. */
  lemma StoreThenGet(keychain: map<string, string>, key: string, p: ProviderType)
    ensures var after := keychain[KeyIdentifier(p) := key];
      KeyIdentifier(p) in after && after[KeyIdentifier(p)] == key
    ensures KeyIdentifier(p) !in keychain - {KeyIdentifier(p)}
  {
  }
}
