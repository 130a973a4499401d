/**
 * Start-up configuration of the voice gateway back end (`create_app` in
 * app/backend/app.py): which credential authorises the realtime model
 * endpoint, which authorises the search endpoint, and the settings handed to
 * the retrieval tool. Everything is a pure function of the environment.
 */
module Startup {
  import opened Wrappers
  import opened Environment

  // Environment variables read by create_app.
  const RunningInProduction := "RUNNING_IN_PRODUCTION"
  const OpenAiEndpoint := "AZURE_OPENAI_ENDPOINT"
  const OpenAiDeployment := "AZURE_OPENAI_REALTIME_DEPLOYMENT"
  const OpenAiApiKey := "AZURE_OPENAI_API_KEY"
  const SearchApiKey := "AZURE_SEARCH_API_KEY"
  const TenantId := "AZURE_TENANT_ID"
  const SearchEndpoint := "AZURE_SEARCH_ENDPOINT"
  const SearchIndex := "AZURE_SEARCH_INDEX"
  const SemanticConfiguration := "AZURE_SEARCH_SEMANTIC_CONFIGURATION"
  const IdentifierField := "AZURE_SEARCH_IDENTIFIER_FIELD"
  const ContentField := "AZURE_SEARCH_CONTENT_FIELD"
  const EmbeddingField := "AZURE_SEARCH_EMBEDDING_FIELD"
  const TitleField := "AZURE_SEARCH_TITLE_FIELD"
  const UseVectorQuery := "AZURE_SEARCH_USE_VECTOR_QUERY"

  /** `process_timeout` given to the developer-CLI credential. */
  const DeveloperCliTimeout: nat := 60

  /**
   * The credential object chosen for an endpoint: a static key, the
   * developer-CLI credential bound to a tenant, or the ambient default
   * credential.
   */
  datatype Cred =
    | KeyCredential(key: string)
    | DeveloperCliCredential(tenantId: string, processTimeout: nat)
    | DefaultCredential
  {
    /** Obtained from the identity provider rather than from a key. */
    predicate IsFederated()
    {
      !KeyCredential?
    }
  }

  /** The keyword arguments of the `attach_rag_tools` call. */
  datatype SearchToolSettings = SearchToolSettings(
    credential: Cred,
    endpoint: Option<string>,
    index: Option<string>,
    semanticConfiguration: string,
    identifierField: string,
    contentField: string,
    embeddingField: string,
    titleField: string,
    useVectorQuery: bool)

  /**
   * What create_app derives from the environment. `federated` is the one
   * identity credential it constructs, if any; every endpoint without a key
   * shares it.
   */
  datatype Settings = Settings(
    llmEndpoint: Option<string>,
    llmDeployment: Option<string>,
    llmCredential: Cred,
    federated: Option<Cred>,
    search: SearchToolSettings)

  /** Settings plus whether the local `.env` file was loaded first. */
  datatype Config = Config(loadedDotEnv: bool, settings: Settings)

  /**
   * The environment after the development-mode `load_dotenv()`: the `.env`
   * file only adds variables, because `load_dotenv` does not override by
   * default, and nothing is loaded in production.
   */
  function EffectiveEnv(env: Env, dotEnv: Env): (e: Env)
    ensures forall n :: n in env ==> n in e && e[n] == env[n]
    ensures IsSet(Get(env, RunningInProduction)) ==> e == env
    ensures !IsSet(Get(env, RunningInProduction)) ==>
      e.Keys == env.Keys + dotEnv.Keys &&
      forall n :: n in dotEnv && n !in env ==> e[n] == dotEnv[n]
  {
    if IsSet(Get(env, RunningInProduction)) then env else dotEnv + env
  }

  /** The identity credential create_app constructs when it needs one. */
  function Federated(e: Env): Cred
  {
    if IsSet(Get(e, TenantId))
    then DeveloperCliCredential(Get(e, TenantId).value, DeveloperCliTimeout)
    else DefaultCredential
  }

  /**
   * Credential resolution from a loaded environment; the search credential
   * goes into the search-tool settings.
   */
  function Resolve(e: Env): (c: Settings)
    // A configured key is used as is, for each endpoint on its own.
    ensures IsSet(Get(e, OpenAiApiKey)) ==> c.llmCredential == KeyCredential(e[OpenAiApiKey])
    ensures IsSet(Get(e, SearchApiKey)) ==> c.search.credential == KeyCredential(e[SearchApiKey])
    // An identity credential is built exactly when some key is missing.
    ensures c.federated.Some? <==> !IsSet(Get(e, OpenAiApiKey)) || !IsSet(Get(e, SearchApiKey))
    ensures c.federated.Some? ==> c.federated.value.IsFederated()
    ensures c.federated.Some? && IsSet(Get(e, TenantId)) ==>
      c.federated.value == DeveloperCliCredential(e[TenantId], 60)
    ensures c.federated.Some? && !IsSet(Get(e, TenantId)) ==> c.federated.value == DefaultCredential
    // An endpoint without a key gets that shared credential.
    ensures !IsSet(Get(e, OpenAiApiKey)) ==> c.federated == Some(c.llmCredential)
    ensures !IsSet(Get(e, SearchApiKey)) ==> c.federated == Some(c.search.credential)
    // Endpoints, deployment and index are passed through unchecked.
    ensures c.llmEndpoint == Get(e, OpenAiEndpoint) && c.llmDeployment == Get(e, OpenAiDeployment)
    ensures c.search == SearchTool(e, c.search.credential)
  {
    var llmKey := Get(e, OpenAiApiKey);
    var searchKey := Get(e, SearchApiKey);
    var credential := if !IsSet(llmKey) || !IsSet(searchKey) then Some(Federated(e)) else None;
    var llmCredential := if IsSet(llmKey) then KeyCredential(llmKey.value) else credential.value;
    var searchCredential := if IsSet(searchKey) then KeyCredential(searchKey.value) else credential.value;
    Settings(Get(e, OpenAiEndpoint), Get(e, OpenAiDeployment), llmCredential, credential, SearchTool(e, searchCredential))
  }

  /** The arguments of `attach_rag_tools`, for a given search credential. */
  function SearchTool(e: Env, credential: Cred): (t: SearchToolSettings)
    ensures t.credential == credential
    ensures t.endpoint == Get(e, SearchEndpoint) && t.index == Get(e, SearchIndex)
    // Every tool setting is the configured value, or its default when unset or empty.
    ensures t.semanticConfiguration == (if IsSet(Get(e, SemanticConfiguration)) then e[SemanticConfiguration] else "default")
    ensures t.identifierField == (if IsSet(Get(e, IdentifierField)) then e[IdentifierField] else "chunk_id")
    ensures t.contentField == (if IsSet(Get(e, ContentField)) then e[ContentField] else "chunk")
    ensures t.embeddingField == (if IsSet(Get(e, EmbeddingField)) then e[EmbeddingField] else "text_vector")
    ensures t.titleField == (if IsSet(Get(e, TitleField)) then e[TitleField] else "title")
    // `(... == "true") or True` is always true.
    ensures t.useVectorQuery
  {
    SearchToolSettings(
      credential,
      Get(e, SearchEndpoint),
      Get(e, SearchIndex),
      OrDefault(Get(e, SemanticConfiguration), "default"),
      OrDefault(Get(e, IdentifierField), "chunk_id"),
      OrDefault(Get(e, ContentField), "chunk"),
      OrDefault(Get(e, EmbeddingField), "text_vector"),
      OrDefault(Get(e, TitleField), "title"),
      (Get(e, UseVectorQuery) == Some("true")) || true)
  }

  /**
   * create_app up to the `attach_rag_tools` call: load `.env` in development
   * mode, then resolve. `dotEnv` is the content of the `.env` file.
   */
  function CreateApp(env: Env, dotEnv: Env): (c: Config)
    ensures c.loadedDotEnv <==> !IsSet(Get(env, RunningInProduction))
    // Development mode resolves over the process environment with `.env` beneath it.
    ensures c.loadedDotEnv ==> c.settings == Resolve(EffectiveEnv(env, dotEnv))
    ensures !c.loadedDotEnv ==> c.settings == Resolve(env)
    ensures dotEnv == map[] ==> c.settings == Resolve(env)
  {
    var dev := !IsSet(Get(env, RunningInProduction));
    var e := EffectiveEnv(env, dotEnv);
    assert dotEnv == map[] ==> e == env;
    Config(dev, Resolve(e))
  }

  /** In development a key missing from the process environment is taken from `.env`. */
  lemma DotEnvSuppliesMissingKeys(env: Env, dotEnv: Env)
    requires !IsSet(Get(env, RunningInProduction))
    ensures OpenAiApiKey !in env && IsSet(Get(dotEnv, OpenAiApiKey)) ==>
      CreateApp(env, dotEnv).settings.llmCredential == KeyCredential(dotEnv[OpenAiApiKey])
    ensures SearchApiKey !in env && IsSet(Get(dotEnv, SearchApiKey)) ==>
      CreateApp(env, dotEnv).settings.search.credential == KeyCredential(dotEnv[SearchApiKey])
  {
  }

  /** The model credential does not depend on the search key once a model key is set. */
  lemma ModelKeyIndependentOfSearchKey(e: Env, searchKey: Option<string>)
    requires IsSet(Get(e, OpenAiApiKey))
    ensures var e' := if searchKey.Some? then e[SearchApiKey := searchKey.value] else e - {SearchApiKey};
      Resolve(e').llmCredential == Resolve(e).llmCredential == KeyCredential(e[OpenAiApiKey])
  {
    var e' := if searchKey.Some? then e[SearchApiKey := searchKey.value] else e - {SearchApiKey};
    assert Get(e', OpenAiApiKey) == Get(e, OpenAiApiKey);
  }

  /** The search credential does not depend on the model key once a search key is set. */
  lemma SearchKeyIndependentOfModelKey(e: Env, llmKey: Option<string>)
    requires IsSet(Get(e, SearchApiKey))
    ensures var e' := if llmKey.Some? then e[OpenAiApiKey := llmKey.value] else e - {OpenAiApiKey};
      Resolve(e').search.credential == Resolve(e).search.credential == KeyCredential(e[SearchApiKey])
  {
    var e' := if llmKey.Some? then e[OpenAiApiKey := llmKey.value] else e - {OpenAiApiKey};
    assert Get(e', SearchApiKey) == Get(e, SearchApiKey);
  }

  /** Without either key both endpoints hold the one identity credential. */
  lemma NoKeysShareOneCredential(e: Env)
    requires !IsSet(Get(e, OpenAiApiKey)) && !IsSet(Get(e, SearchApiKey))
    ensures Resolve(e).llmCredential == Resolve(e).search.credential
    ensures Resolve(e).llmCredential.IsFederated()
  {
  }

  /** With both keys set no identity credential is constructed. */
  lemma BothKeysBuildNoIdentity(e: Env)
    requires IsSet(Get(e, OpenAiApiKey)) && IsSet(Get(e, SearchApiKey))
    ensures Resolve(e).federated == None
    ensures !Resolve(e).llmCredential.IsFederated() && !Resolve(e).search.credential.IsFederated()
  {
  }

  /**
   * Whatever the environment, each endpoint holds either a key credential
   * with a non-empty secret or the shared identity credential.
   */
  lemma CredentialsWellFormed(e: Env)
    ensures var c := Resolve(e);
      (c.llmCredential.KeyCredential? && c.llmCredential.key != "") || c.federated == Some(c.llmCredential)
    ensures var c := Resolve(e);
      (c.search.credential.KeyCredential? && c.search.credential.key != "") || c.federated == Some(c.search.credential)
    ensures var c := Resolve(e);
      c.federated.Some? && c.federated.value.DeveloperCliCredential? ==>
        c.federated.value.tenantId != "" && c.federated.value.processTimeout == DeveloperCliTimeout
  {
  }

  /** No search setting that has a default is ever left empty. */
  lemma SearchSettingsNeverEmpty(e: Env)
    ensures var s := Resolve(e).search;
      s.semanticConfiguration != "" && s.identifierField != "" && s.contentField != "" &&
      s.embeddingField != "" && s.titleField != ""
  {
  }

  /** The vector-query variable has no effect on any setting: set, changed or removed. */
  lemma VectorQueryToggleIgnored(e: Env, toggle: Option<string>)
    ensures var e' := if toggle.Some? then e[UseVectorQuery := toggle.value] else e - {UseVectorQuery};
      Resolve(e') == Resolve(e)
  {
    var e' := if toggle.Some? then e[UseVectorQuery := toggle.value] else e - {UseVectorQuery};
    forall n | n != UseVectorQuery
      ensures Get(e', n) == Get(e, n)
    {
    }
  }

  /** In production the `.env` file, whatever it holds, changes nothing. */
  lemma ProductionIgnoresDotEnv(env: Env, dotEnv1: Env, dotEnv2: Env)
    requires IsSet(Get(env, RunningInProduction))
    ensures CreateApp(env, dotEnv1) == CreateApp(env, dotEnv2)
    ensures !CreateApp(env, dotEnv1).loadedDotEnv
  {
  }

  /** In development a variable of the process environment is never replaced by `.env`. */
  lemma ProcessVariableWinsOverDotEnv(env: Env, dotEnv: Env, name: string)
    requires name in env
    ensures Get(EffectiveEnv(env, dotEnv), name) == Get(env, name)
  {
  }
}
