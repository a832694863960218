/** Where the provider settings come from: environment, settings.toml, the SQLite state
    store, provider presets and built-in defaults. */
module ConfigOverlay {
  import opened Numerals
  import StringMapJson

  datatype Source = BuiltInDefault | Toml | Environment | StateStore

  /** The four values one layer may set: environment variables, or valid TOML strings. */
  datatype Layer = Layer(
    providerId: Option<string>,
    model: Option<string>,
    baseUrl: Option<string>,
    apiKeyEnv: Option<string>)

  datatype Profile = Profile(
    id: string,
    providerId: string,
    enabled: bool,
    baseUrl: Option<string>,
    defaultModel: Option<string>,
    optionsJson: string)

  /** What the state store remembers; an entry that cannot be read counts as absent. */
  datatype Store = Store(
    lastProfileId: Option<string>,
    lastProviderId: Option<string>,
    lastModel: Option<string>,
    profiles: map<string, Profile>)

  datatype Preset = Preset(model: string, baseUrl: string, apiKeyEnv: string)

  const DEFAULTS := Preset("gpt-4o-mini", "https://api.openai.com/v1/", "OPENAI_API_KEY")
  const DEFAULT_PROVIDER := "openai-compatible"

  function PresetOf(providerId: string): Option<Preset> {
    if providerId == "openai" then Some(Preset("gpt-4o-mini", "https://api.openai.com/v1/", "OPENAI_API_KEY"))
    else if providerId == "zai" then Some(Preset("glm-5.1", "https://api.z.ai/api/coding/paas/v4", "ZAI_API_KEY"))
    else if providerId == "bedrock" then Some(Preset("anthropic.claude-3-5-haiku-20241022-v1:0", "", ""))
    else None
  }

  predicate IsKnownProvider(id: string) {
    id == "openai-compatible" || id == "openai" || id == "zai" || id == "bedrock"
  }

  predicate NonEmpty(entry: Option<string>) {
    entry.Some? && entry.value != ""
  }

  // ---------- the rule ----------

  datatype Tagged = Tagged(value: string, source: Source)

  function From(value: Option<string>, source: Source): Option<Tagged> {
    if value.None? then None else Some(Tagged(value.value, source))
  }

  function Else<T>(first: Option<T>, second: Option<T>): Option<T> {
    if first.Some? then first else second
  }

  function OrDefault(choice: Option<Tagged>, value: string): Tagged {
    if choice.Some? then choice.value else Tagged(value, BuiltInDefault)
  }

  /** A stored profile that may be used. */
  function Usable(store: Store, id: string): Option<Profile> {
    if id !in store.profiles then None
    else
      var p := store.profiles[id];
      if p.enabled && IsKnownProvider(p.providerId) && StringMapJson.ReadObject(p.optionsJson).Ok? then Some(p) else None
  }

  /** The provider the store asks for: that of the last profile, or the last provider. */
  function StoredProvider(store: Store): Option<string> {
    var p := if NonEmpty(store.lastProfileId) then Usable(store, store.lastProfileId.value) else None;
    if p.Some? then Some(p.value.providerId)
    else if store.lastProviderId.Some? && IsKnownProvider(store.lastProviderId.value) then store.lastProviderId
    else None
  }

  function ProviderRule(env: Layer, toml: Layer, store: Option<Store>): Tagged {
    var stored := if store.None? then None else StoredProvider(store.value);
    OrDefault(Else(From(env.providerId, Environment), Else(From(toml.providerId, Toml), From(stored, StateStore))),
              DEFAULT_PROVIDER)
  }

  function PresetFor(providerId: Option<string>): Option<Preset> {
    if providerId.None? then None else PresetOf(providerId.value)
  }

  /** The last preset that was applied: a provider without a preset leaves the one before. */
  function PresetRule(env: Layer, toml: Layer, store: Option<Store>): Preset {
    var provider := ProviderRule(env, toml, store);
    var stored := if provider.source.StateStore? then PresetOf(provider.value) else None;
    var preset := Else(stored, Else(PresetFor(env.providerId), PresetFor(toml.providerId)));
    if preset.Some? then preset.value else DEFAULTS
  }

  /** The profile in force, if it belongs to the provider in force. */
  function MatchingProfile(provider: string, store: Store): Option<Profile> {
    var p := Usable(store, if NonEmpty(store.lastProfileId) then store.lastProfileId.value else provider);
    if p.Some? && p.value.providerId == provider then p else None
  }

  /** The store points at a provider or profile, but at none that can be used. */
  predicate Stale(provider: Tagged, store: Store) {
    && provider.source.BuiltInDefault? && MatchingProfile(provider.value, store).None?
    && (NonEmpty(store.lastProfileId) || NonEmpty(store.lastProviderId))
  }

  function StoredModel(provider: Tagged, store: Store): Option<string> {
    var p := MatchingProfile(provider.value, store);
    if !Stale(provider, store) && NonEmpty(store.lastModel) then store.lastModel
    else if p.Some? then p.value.defaultModel
    else None
  }

  function StoredBaseUrl(provider: Tagged, store: Store): Option<string> {
    var p := MatchingProfile(provider.value, store);
    if p.Some? then p.value.baseUrl else None
  }

  function ModelRule(env: Layer, toml: Layer, store: Option<Store>): Tagged {
    var stored := if store.None? then None else StoredModel(ProviderRule(env, toml, store), store.value);
    OrDefault(Else(From(env.model, Environment), Else(From(toml.model, Toml), From(stored, StateStore))),
              PresetRule(env, toml, store).model)
  }

  function BaseUrlRule(env: Layer, toml: Layer, store: Option<Store>): Tagged {
    var stored := if store.None? then None else StoredBaseUrl(ProviderRule(env, toml, store), store.value);
    OrDefault(Else(From(env.baseUrl, Environment), Else(From(toml.baseUrl, Toml), From(stored, StateStore))),
              PresetRule(env, toml, store).baseUrl)
  }

  function ApiKeyEnvRule(env: Layer, toml: Layer, store: Option<Store>): Tagged {
    OrDefault(Else(From(env.apiKeyEnv, Environment), From(toml.apiKeyEnv, Toml)),
              PresetRule(env, toml, store).apiKeyEnv)
  }

  /** The profile in force is the matching one of the store, and there is no other. */
  function ProfileRule(env: Layer, toml: Layer, store: Option<Store>): Tagged {
    var matching := if store.None? then None else MatchingProfile(ProviderRule(env, toml, store).value, store.value);
    if matching.Some? then Tagged(matching.value.id, StateStore) else Tagged("", BuiltInDefault)
  }

  predicate Explicit(t: Tagged) {
    t.source.Environment? || t.source.Toml?
  }

  /** The state store changes no value that the environment or settings.toml set, nor
      makes one look as if they had. */
  lemma StoreNeverChangesExplicitValues(env: Layer, toml: Layer, store: Option<Store>, other: Option<Store>)
    ensures Explicit(ProviderRule(env, toml, store)) ==> ProviderRule(env, toml, other) == ProviderRule(env, toml, store)
    ensures Explicit(ModelRule(env, toml, store)) ==> ModelRule(env, toml, other) == ModelRule(env, toml, store)
    ensures Explicit(BaseUrlRule(env, toml, store)) ==> BaseUrlRule(env, toml, other) == BaseUrlRule(env, toml, store)
    ensures Explicit(ApiKeyEnvRule(env, toml, store)) ==> ApiKeyEnvRule(env, toml, other) == ApiKeyEnvRule(env, toml, store)
    ensures !ApiKeyEnvRule(env, toml, store).source.StateStore?
  {
    hide PresetRule, StoredModel, StoredBaseUrl, StoredProvider;
  }

  /** The key's variable name can come out of a preset the store brought in, under the
      tag of a built-in default. */
  lemma StoredProvidersBringTheirPreset(env: Layer, toml: Layer, store: Store)
    requires env.providerId.None? && toml.providerId.None? && StoredProvider(store).Some?
    requires env.apiKeyEnv.None? && toml.apiKeyEnv.None?
    ensures ApiKeyEnvRule(env, toml, Some(store))
         == Tagged((if PresetOf(StoredProvider(store).value).Some? then PresetOf(StoredProvider(store).value).value else DEFAULTS).apiKeyEnv,
                   BuiltInDefault)
  {}

  /** The preset a provider should bring: its own, or the built-in defaults. */
  function OwnPreset(providerId: string): Preset {
    var preset := PresetOf(providerId);
    if preset.Some? then preset.value else DEFAULTS
  }

  /** The environment replaces the TOML provider by one without a preset. */
  predicate OverridesWithoutPreset(env: Layer, toml: Layer) {
    env.providerId.Some? && PresetOf(env.providerId.value).None? && toml.providerId.Some?
  }

  /** Overriding a TOML provider by one without a preset leaves the TOML provider's preset
      in force; that is the only way for the preset in force not to be that of the
      provider in force. A defaulted value then is the wrong provider's exactly if that
      preset's field is not the built-in default. */
  lemma OverriddenPresetsCanStay(env: Layer, toml: Layer, store: Option<Store>)
    ensures var own := OwnPreset(ProviderRule(env, toml, store).value);
            var left := if OverridesWithoutPreset(env, toml) then OwnPreset(toml.providerId.value) else own;
            var model, baseUrl, apiKeyEnv := ModelRule(env, toml, store), BaseUrlRule(env, toml, store), ApiKeyEnvRule(env, toml, store);
            && (OverridesWithoutPreset(env, toml) ==> own == DEFAULTS)
            && PresetRule(env, toml, store) == left
            && (PresetRule(env, toml, store) == own <==> !(OverridesWithoutPreset(env, toml) && left != DEFAULTS))
            && (model.source.BuiltInDefault? ==>
                  (model.value == own.model <==> !(OverridesWithoutPreset(env, toml) && left.model != DEFAULTS.model)))
            && (baseUrl.source.BuiltInDefault? ==>
                  (baseUrl.value == own.baseUrl <==> !(OverridesWithoutPreset(env, toml) && left.baseUrl != DEFAULTS.baseUrl)))
            && (apiKeyEnv.source.BuiltInDefault? ==>
                  (apiKeyEnv.value == own.apiKeyEnv <==> !(OverridesWithoutPreset(env, toml) && left.apiKeyEnv != DEFAULTS.apiKeyEnv)))
  {
    PresetInForce(env, toml, store);
    hide PresetRule, PresetOf, OwnPreset, ProviderRule, StoredModel, StoredBaseUrl;
  }

  lemma PresetInForce(env: Layer, toml: Layer, store: Option<Store>)
    ensures OverridesWithoutPreset(env, toml) ==> OwnPreset(ProviderRule(env, toml, store).value) == DEFAULTS
    ensures PresetRule(env, toml, store)
         == if OverridesWithoutPreset(env, toml) then OwnPreset(toml.providerId.value)
            else OwnPreset(ProviderRule(env, toml, store).value)
  {
    hide StoredProvider;
    assert PresetOf(DEFAULT_PROVIDER).None?;
    hide PresetOf;
  }

  /** Bedrock in settings.toml, another provider in the environment: its model is asked
      for with no address and no key. */
  lemma LeftoverPreset(store: Option<Store>)
    ensures var env := Layer(Some("openai-compatible"), None, None, None);
            var toml := Layer(Some("bedrock"), None, None, None);
            && ProviderRule(env, toml, store) == Tagged("openai-compatible", Environment)
            && ApiKeyEnvRule(env, toml, store) == Tagged("", BuiltInDefault)
            && DEFAULTS.apiKeyEnv != ""
  {
    OverriddenPresetsCanStay(Layer(Some("openai-compatible"), None, None, None), Layer(Some("bedrock"), None, None, None), store);
  }

  /** With a stale context the remembered model is not used, and nothing else of the
      store is. */
  lemma StaleStoresAreIgnored(env: Layer, toml: Layer, store: Store)
    requires Stale(ProviderRule(env, toml, Some(store)), store)
    ensures ProviderRule(env, toml, Some(store)) == ProviderRule(env, toml, None)
    ensures ModelRule(env, toml, Some(store)) == ModelRule(env, toml, None)
    ensures BaseUrlRule(env, toml, Some(store)) == BaseUrlRule(env, toml, None)
    ensures ApiKeyEnvRule(env, toml, Some(store)) == ApiKeyEnvRule(env, toml, None)
  {}

  // ---------- which profiles count ----------

  /** The profile is switched off, is for a provider there is none of, or its options
      cannot be read. */
  predicate OutOfUse(p: Profile) {
    || !p.enabled
    || p.providerId !in ["openai-compatible", "openai", "zai", "bedrock"]
    || !StringMapJson.ReadObject(p.optionsJson).Ok?
  }

  function Without(store: Store, id: string): Store {
    store.(profiles := store.profiles - {id})
  }

  lemma UsableWithout(store: Store, id: string, other: string)
    requires id in store.profiles && OutOfUse(store.profiles[id])
    ensures Usable(Without(store, id), other) == Usable(store, other)
  {
    hide StringMapJson.ReadObject;
  }

  /** A profile that is out of use counts for nothing: with any environment and any
      settings, all values and tags are what they would be if it were not stored. */
  lemma ProfilesOutOfUseAreIgnored(env: Layer, toml: Layer, store: Store, id: string)
    requires id in store.profiles && OutOfUse(store.profiles[id])
    ensures ProviderRule(env, toml, Some(store)) == ProviderRule(env, toml, Some(Without(store, id)))
    ensures ModelRule(env, toml, Some(store)) == ModelRule(env, toml, Some(Without(store, id)))
    ensures BaseUrlRule(env, toml, Some(store)) == BaseUrlRule(env, toml, Some(Without(store, id)))
    ensures ApiKeyEnvRule(env, toml, Some(store)) == ApiKeyEnvRule(env, toml, Some(Without(store, id)))
    ensures ProfileRule(env, toml, Some(store)) == ProfileRule(env, toml, Some(Without(store, id)))
  {
    hide Usable, PresetOf, OutOfUse, IsKnownProvider;
    var provider := ProviderRule(env, toml, Some(store)).value;
    if NonEmpty(store.lastProfileId) {
      UsableWithout(store, id, store.lastProfileId.value);
    }
    UsableWithout(store, id, provider);
  }

  /** A profile that is remembered and not out of use is used for all that nothing else
      sets: it brings its provider, its address, and its model unless one is remembered. */
  lemma RememberedProfilesAreUsed(env: Layer, toml: Layer, store: Store)
    requires NonEmpty(store.lastProfileId) && store.lastProfileId.value in store.profiles
    requires !OutOfUse(store.profiles[store.lastProfileId.value])
    requires env.providerId.None? && toml.providerId.None?
    ensures var p := store.profiles[store.lastProfileId.value];
            && ProviderRule(env, toml, Some(store)) == Tagged(p.providerId, StateStore)
            && ProfileRule(env, toml, Some(store)) == Tagged(p.id, StateStore)
            && (env.baseUrl.None? && toml.baseUrl.None? && p.baseUrl.Some? ==>
                  BaseUrlRule(env, toml, Some(store)) == Tagged(p.baseUrl.value, StateStore))
            && (env.model.None? && toml.model.None? && NonEmpty(store.lastModel) ==>
                  ModelRule(env, toml, Some(store)) == Tagged(store.lastModel.value, StateStore))
            && (env.model.None? && toml.model.None? && !NonEmpty(store.lastModel) && p.defaultModel.Some? ==>
                  ModelRule(env, toml, Some(store)) == Tagged(p.defaultModel.value, StateStore))
  {
    hide PresetOf, StringMapJson.ReadObject;
  }

  /** A remembered provider is used if it is one there is and no usable profile is
      remembered, and is nothing otherwise: the provider then is the built-in one. */
  lemma RememberedProvidersComeSecond(env: Layer, toml: Layer, store: Store)
    requires env.providerId.None? && toml.providerId.None?
    requires NonEmpty(store.lastProfileId) && store.lastProfileId.value in store.profiles ==>
               OutOfUse(store.profiles[store.lastProfileId.value])
    ensures ProviderRule(env, toml, Some(store))
         == if store.lastProviderId.Some? && store.lastProviderId.value in ["openai-compatible", "openai", "zai", "bedrock"]
            then Tagged(store.lastProviderId.value, StateStore) else Tagged("openai-compatible", BuiltInDefault)
  {
    hide StringMapJson.ReadObject;
  }

  /** A profile of another provider than the one in force gives neither model nor address. */
  lemma ForeignProfilesGiveNothing(env: Layer, toml: Layer, store: Store)
    requires forall id :: id in store.profiles ==> store.profiles[id].providerId != ProviderRule(env, toml, Some(store)).value
    ensures !BaseUrlRule(env, toml, Some(store)).source.StateStore?
    ensures ProfileRule(env, toml, Some(store)) == Tagged("", BuiltInDefault)
    ensures ModelRule(env, toml, Some(store)).source.StateStore? ==>
              NonEmpty(store.lastModel) && ModelRule(env, toml, Some(store)).value == store.lastModel.value
  {
    hide PresetOf, StringMapJson.ReadObject, ProviderRule, IsKnownProvider;
  }

  function Remembered(entry: Option<string>): Option<string> {
    if entry == Some("") then None else entry
  }

  /** Entries that are remembered as empty are as good as none. */
  lemma EmptyEntriesAreNone(env: Layer, toml: Layer, store: Store)
    ensures var cleaned := store.(lastProfileId := Remembered(store.lastProfileId),
                                  lastProviderId := Remembered(store.lastProviderId),
                                  lastModel := Remembered(store.lastModel));
            && ProviderRule(env, toml, Some(store)) == ProviderRule(env, toml, Some(cleaned))
            && ModelRule(env, toml, Some(store)) == ModelRule(env, toml, Some(cleaned))
            && BaseUrlRule(env, toml, Some(store)) == BaseUrlRule(env, toml, Some(cleaned))
            && ApiKeyEnvRule(env, toml, Some(store)) == ApiKeyEnvRule(env, toml, Some(cleaned))
  {
    hide PresetOf, StringMapJson.ReadObject;
  }

  // ---------- the pipeline, one overlay after the other ----------

  /** Which values were set explicitly. */
  datatype FieldSet = FieldSet(model: bool, baseUrl: bool, apiKeyEnv: bool)

  datatype Values = Values(
    provider: Tagged,
    profile: Tagged,
    model: Tagged,
    baseUrl: Tagged,
    apiKeyEnv: Tagged,
    explicit: FieldSet)

  const BUILT_IN := Values(Tagged(DEFAULT_PROVIDER, BuiltInDefault), Tagged("", BuiltInDefault),
                           Tagged(DEFAULTS.model, BuiltInDefault), Tagged(DEFAULTS.baseUrl, BuiltInDefault),
                           Tagged(DEFAULTS.apiKeyEnv, BuiltInDefault), FieldSet(false, false, false))

  function Set(value: Option<string>, source: Source, before: Tagged): Tagged {
    if value.Some? then Tagged(value.value, source) else before
  }

  function SetIfDefault(value: Option<string>, before: Tagged): Tagged {
    if before.source.BuiltInDefault? then Set(value, StateStore, before) else before
  }

  /** A preset replaces what is not explicit, without changing any tag. */
  function WithPreset(v: Values, preset: Option<Preset>): Values {
    if preset.None? then v
    else
      v.(model := if v.explicit.model then v.model else v.model.(value := preset.value.model),
         baseUrl := if v.explicit.baseUrl then v.baseUrl else v.baseUrl.(value := preset.value.baseUrl),
         apiKeyEnv := if v.explicit.apiKeyEnv then v.apiKeyEnv else v.apiKeyEnv.(value := preset.value.apiKeyEnv))
  }

  function AfterLayer(v: Values, layer: Layer, source: Source): Values {
    v.(provider := Set(layer.providerId, source, v.provider),
       model := Set(layer.model, source, v.model),
       baseUrl := Set(layer.baseUrl, source, v.baseUrl),
       apiKeyEnv := Set(layer.apiKeyEnv, source, v.apiKeyEnv),
       explicit := FieldSet(layer.model.Some? || v.explicit.model, layer.baseUrl.Some? || v.explicit.baseUrl,
                            layer.apiKeyEnv.Some? || v.explicit.apiKeyEnv))
  }

  function AfterToml(v: Values, toml: Layer): Values {
    WithPreset(AfterLayer(v, toml, Toml), PresetFor(toml.providerId))
  }

  function AfterEnv(v: Values, env: Layer): Values {
    AfterLayer(WithPreset(v, PresetFor(env.providerId)), env, Environment)
  }

  function AfterProfile(v: Values, p: Profile): Values {
    v.(profile := SetIfDefault(Some(p.id), v.profile),
       baseUrl := SetIfDefault(p.baseUrl, v.baseUrl),
       model := SetIfDefault(p.defaultModel, v.model))
  }

  function AfterLastModel(v: Values, store: Store, stale: bool): Values {
    if (v.model.source.BuiltInDefault? || v.model.source.StateStore?) && !stale && NonEmpty(store.lastModel) then
      v.(model := Tagged(store.lastModel.value, StateStore))
    else v
  }

  function AfterProvider(v: Values, stored: Option<string>): Values {
    if v.provider.source.BuiltInDefault? && stored.Some? then
      WithPreset(v.(provider := Tagged(stored.value, StateStore)), PresetOf(stored.value))
    else v
  }

  function AfterStore(v: Values, store: Store): Values {
    var v1 := AfterProvider(v, StoredProvider(store));
    var p := MatchingProfile(v1.provider.value, store);
    var v2 := if p.Some? then AfterProfile(v1, p.value) else v1;
    AfterLastModel(v2, store, Stale(v1.provider, store))
  }

  function Overlaid(env: Layer, toml: Layer, store: Option<Store>): Values {
    var v := AfterEnv(AfterToml(BUILT_IN, toml), env);
    if store.None? then v else AfterStore(v, store.value)
  }

  /** What environment and TOML settle between them. */
  lemma LayersFollowTheRule(env: Layer, toml: Layer)
    ensures var v := AfterEnv(AfterToml(BUILT_IN, toml), env);
            && v.provider == ProviderRule(env, toml, None) && v.model == ModelRule(env, toml, None)
            && v.baseUrl == BaseUrlRule(env, toml, None) && v.apiKeyEnv == ApiKeyEnvRule(env, toml, None)
            && v.explicit == FieldSet(Explicit(v.model), Explicit(v.baseUrl), Explicit(v.apiKeyEnv))
            && v.profile == Tagged("", BuiltInDefault)
  {
    hide PresetOf, StoredProvider, MatchingProfile;
  }

  /** The rule with a store, in terms of the rule without. */
  lemma StoreInTheRule(env: Layer, toml: Layer, store: Store)
    ensures var provider := ProviderRule(env, toml, Some(store));
            var preset := if provider.source.StateStore? then PresetOf(provider.value) else None;
            && provider == SetIfDefault(StoredProvider(store), ProviderRule(env, toml, None))
            && ModelRule(env, toml, Some(store))
                 == SetIfDefault(StoredModel(provider, store), Preferred(ModelRule(env, toml, None), preset, 0))
            && BaseUrlRule(env, toml, Some(store))
                 == SetIfDefault(StoredBaseUrl(provider, store), Preferred(BaseUrlRule(env, toml, None), preset, 1))
            && ApiKeyEnvRule(env, toml, Some(store)) == Preferred(ApiKeyEnvRule(env, toml, None), preset, 2)
  {
    hide PresetOf, StoredProvider, StoredModel, StoredBaseUrl;
  }

  /** A value, or field number `field` of the preset in its place if it is a default. */
  function Preferred(t: Tagged, preset: Option<Preset>, field: nat): Tagged {
    if preset.None? || Explicit(t) then t
    else t.(value := if field == 0 then preset.value.model else if field == 1 then preset.value.baseUrl else preset.value.apiKeyEnv)
  }

  function IdOf(p: Option<Profile>): Option<string> {
    if p.None? then None else Some(p.value.id)
  }

  lemma StoreStep(v: Values, store: Store)
    requires v.explicit == FieldSet(Explicit(v.model), Explicit(v.baseUrl), Explicit(v.apiKeyEnv))
    requires !v.provider.source.StateStore? && !v.model.source.StateStore? && !v.baseUrl.source.StateStore?
    ensures var provider := SetIfDefault(StoredProvider(store), v.provider);
            var preset := if provider.source.StateStore? then PresetOf(provider.value) else None;
            var v' := AfterStore(v, store);
            && v'.provider == provider
            && v'.model == SetIfDefault(StoredModel(provider, store), Preferred(v.model, preset, 0))
            && v'.baseUrl == SetIfDefault(StoredBaseUrl(provider, store), Preferred(v.baseUrl, preset, 1))
            && v'.apiKeyEnv == Preferred(v.apiKeyEnv, preset, 2)
            && v'.profile == SetIfDefault(IdOf(MatchingProfile(provider.value, store)), v.profile)
  {
    hide PresetOf, StoredProvider, MatchingProfile;
  }

  /** Overlaying refines choosing: every value and every tag is the one the rule gives. */
  lemma OverlaysFollowTheRule(env: Layer, toml: Layer, store: Option<Store>)
    ensures Overlaid(env, toml, store).provider == ProviderRule(env, toml, store)
    ensures Overlaid(env, toml, store).model == ModelRule(env, toml, store)
    ensures Overlaid(env, toml, store).baseUrl == BaseUrlRule(env, toml, store)
    ensures Overlaid(env, toml, store).apiKeyEnv == ApiKeyEnvRule(env, toml, store)
    ensures Overlaid(env, toml, store).profile == ProfileRule(env, toml, store)
  {
    LayersFollowTheRule(env, toml);
    if store.Some? {
      hide AfterStore, AfterEnv, AfterToml, PresetRule, PresetOf, StoredModel, StoredBaseUrl, StoredProvider, Preferred, MatchingProfile;
      var v := AfterEnv(AfterToml(BUILT_IN, toml), env);
      StoreStep(v, store.value);
      StoreInTheRule(env, toml, store.value);
    }
  }

  // ---------- as it runs ----------

  class ChatConfig {
    var provider: Tagged
    var profile: Tagged
    var model: Tagged
    var baseUrl: Tagged
    var apiKeyEnv: Tagged
    var explicit: FieldSet

    ghost function View(): Values
      reads this
    {
      Values(provider, profile, model, baseUrl, apiKeyEnv, explicit)
    }

    constructor ()
      ensures View() == BUILT_IN
    {
      provider, profile := Tagged(DEFAULT_PROVIDER, BuiltInDefault), Tagged("", BuiltInDefault);
      model, baseUrl := Tagged(DEFAULTS.model, BuiltInDefault), Tagged(DEFAULTS.baseUrl, BuiltInDefault);
      apiKeyEnv, explicit := Tagged(DEFAULTS.apiKeyEnv, BuiltInDefault), FieldSet(false, false, false);
    }

    method ApplyProviderDefaults()
      modifies `model, `baseUrl, `apiKeyEnv
      ensures View() == WithPreset(old(View()), PresetOf(provider.value))
    {
      hide PresetOf;
      var preset := PresetOf(provider.value);
      if preset.None? {
        return;
      }
      if !explicit.model {
        model := model.(value := preset.value.model);
      }
      if !explicit.baseUrl {
        baseUrl := baseUrl.(value := preset.value.baseUrl);
      }
      if !explicit.apiKeyEnv {
        apiKeyEnv := apiKeyEnv.(value := preset.value.apiKeyEnv);
      }
    }

    method LoadSettingsFromToml(toml: Layer) returns (hasProvider: bool)
      requires explicit == FieldSet(false, false, false)
      modifies this
      ensures View() == AfterLayer(old(View()), toml, Toml) && hasProvider == toml.providerId.Some?
    {
      hasProvider := toml.providerId.Some?;
      explicit := FieldSet(toml.model.Some?, toml.baseUrl.Some?, toml.apiKeyEnv.Some?);
      if toml.providerId.Some? {
        provider := Tagged(toml.providerId.value, Toml);
      }
      if explicit.model {
        model := Tagged(toml.model.value, Toml);
      }
      if explicit.baseUrl {
        baseUrl := Tagged(toml.baseUrl.value, Toml);
      }
      if explicit.apiKeyEnv {
        apiKeyEnv := Tagged(toml.apiKeyEnv.value, Toml);
      }
    }

    method ApplyEnvOverrides(env: Layer)
      modifies this
      ensures View() == AfterEnv(old(View()), env)
    {
      hide PresetOf;
      if env.providerId.Some? {
        provider := Tagged(env.providerId.value, Environment);
        ApplyProviderDefaults();
      }
      if env.model.Some? {
        model := Tagged(env.model.value, Environment);
        explicit := explicit.(model := true);
      }
      if env.baseUrl.Some? {
        baseUrl := Tagged(env.baseUrl.value, Environment);
        explicit := explicit.(baseUrl := true);
      }
      if env.apiKeyEnv.Some? {
        apiKeyEnv := Tagged(env.apiKeyEnv.value, Environment);
        explicit := explicit.(apiKeyEnv := true);
      }
    }

    method ResolveStateProfile(store: Store) returns (found: Option<Profile>)
      ensures found == Usable(store, if NonEmpty(store.lastProfileId) then store.lastProfileId.value else provider.value)
    {
      var id := provider.value;
      if NonEmpty(store.lastProfileId) {
        id := store.lastProfileId.value;
      }
      if id !in store.profiles || !store.profiles[id].enabled || !IsKnownProvider(store.profiles[id].providerId) {
        return None;
      }
      var options := StringMapJson.ParseStringMapJson(store.profiles[id].optionsJson);
      return if options.Ok? then Some(store.profiles[id]) else None;
    }

    /** The provider the store chooses, with its preset, if nothing else chose one. */
    method ChooseStateProvider(p: Option<Profile>, last: Option<string>) returns (chosen: bool)
      requires !provider.source.StateStore?
      modifies `provider, `model, `baseUrl, `apiKeyEnv
      ensures var stored := if p.Some? && IsKnownProvider(p.value.providerId) then Some(p.value.providerId)
                            else if last.Some? && IsKnownProvider(last.value) then last else None;
              && View() == AfterProvider(old(View()), stored)
              && chosen == (old(provider).source.BuiltInDefault? && stored.Some?)
    {
      hide PresetOf, IsKnownProvider;
      chosen := false;
      if provider.source.BuiltInDefault? {
        if p.Some? && IsKnownProvider(p.value.providerId) {
          provider, chosen := Tagged(p.value.providerId, StateStore), true;
        } else if last.Some? && IsKnownProvider(last.value) {
          provider, chosen := Tagged(last.value, StateStore), true;
        }
      }
      if provider.source.StateStore? {
        ApplyProviderDefaults();
      }
    }

    method ApplyStateProfile(p: Profile)
      modifies `profile, `baseUrl, `model
      ensures View() == AfterProfile(old(View()), p)
    {
      if profile.source.BuiltInDefault? {
        profile := Tagged(p.id, StateStore);
      }
      if baseUrl.source.BuiltInDefault? && p.baseUrl.Some? {
        baseUrl := Tagged(p.baseUrl.value, StateStore);
      }
      if model.source.BuiltInDefault? && p.defaultModel.Some? {
        model := Tagged(p.defaultModel.value, StateStore);
      }
    }

    method ApplyStateStoreOverrides(store: Store)
      requires !provider.source.StateStore?
      modifies this
      ensures View() == AfterStore(old(View()), store)
    {
      hide PresetOf, StringMapJson.ReadObject;
      var found: Option<Profile> := None;
      if NonEmpty(store.lastProfileId) {
        found := ResolveStateProfile(store);
      }
      var hasValidContext := !provider.source.BuiltInDefault?;
      var chosen := ChooseStateProvider(found, store.lastProviderId);
      hasValidContext := hasValidContext || chosen;
      if !NonEmpty(store.lastProfileId) {
        found := ResolveStateProfile(store);
      }
      hide Usable, IsKnownProvider;
      if found.Some? && found.value.providerId == provider.value {
        hasValidContext := true;
        ApplyStateProfile(found.value);
      }
      var stale := !hasValidContext && (NonEmpty(store.lastProfileId) || NonEmpty(store.lastProviderId));
      if (model.source.BuiltInDefault? || model.source.StateStore?) && !stale {
        if NonEmpty(store.lastModel) {
          model := Tagged(store.lastModel.value, StateStore);
        }
      }
    }
  }

  method LoadChatConfig(env: Layer, toml: Layer, store: Option<Store>) returns (config: ChatConfig)
    ensures config.provider == ProviderRule(env, toml, store)
    ensures config.model == ModelRule(env, toml, store)
    ensures config.baseUrl == BaseUrlRule(env, toml, store)
    ensures config.apiKeyEnv == ApiKeyEnvRule(env, toml, store)
    ensures config.profile == ProfileRule(env, toml, store)
  {
    hide AfterStore, PresetOf, ProviderRule, ProfileRule, ModelRule, BaseUrlRule, ApiKeyEnvRule;
    OverlaysFollowTheRule(env, toml, store);
    config := new ChatConfig();
    var hasProvider := config.LoadSettingsFromToml(toml);
    if hasProvider {
      config.ApplyProviderDefaults();
    }
    config.ApplyEnvOverrides(env);
    if store.Some? {
      config.ApplyStateStoreOverrides(store.value);
    }
  }
}
