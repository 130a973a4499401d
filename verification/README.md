# admit-care: start-up configuration and idempotent search provisioning

This project models two small pieces of decision logic from the admit-care
voice gateway, a back end that relays a realtime model session and gives the
model a retrieval tool backed by Azure AI Search.

* **Start-up configuration** (`create_app` in `app/backend/app.py`). The
  environment decides two things. First, which credential authorises the
  realtime model endpoint, and which authorises the search endpoint. Each is a
  static key, a developer-CLI credential scoped to a tenant with a process
  timeout of 60, or the ambient default credential. Second, the settings the
  retrieval tool is attached with. The module `Startup` models this as pure
  functions: `CreateApp` (development-mode `.env` loading), `Resolve`
  (credentials) and `SearchTool` (tool settings). It uses the tagged union
  `Cred`.
* **Provisioning script** (`app/backend/setup_intvect.py`). It finds the
  default azd environment. Then it creates the search data source, index,
  skillset and indexer, uploads the data files to a blob container and starts
  the indexer. Each step runs only if that resource is absent. The module
  `Provision` models the search service and the container as classes whose
  fields are the names (and blob contents) the remote side holds. Each method
  is proved against a specification function on values (`SetupSpec`,
  `Pending`, `Uploaded`). Lemmas about those functions prove the script's
  promises: afterwards every name is present, nothing that existed is
  recreated, and a second run changes nothing.

Files: `wrappers.dfy` (Option, Result), `environment.dfy` (the environment
map and Python truthiness), `startup.dfy`, `provision.dfy`.

An environment is a `map<string, string>`. A name that is not a key is unset,
as `os.environ.get` returns `None`. `IsSet` is Python truthiness: unset and
`""` both count as absent.

Two details of the code that the model states exactly:

* A federated credential is built when either key is missing or empty
  (`app.py:26`), not only when both are. `Resolve` states this as an
  if-and-only-if.
* `use_vector_query` is `(... == "true") or True`, which is always true
  (`app.py:216`). An explicit `"false"` cannot disable vector queries.
  `VectorQueryToggleIgnored` proves that the variable has no effect on any
  setting.

## Model

| member | source | states |
|---|---|---|
| Startup.EffectiveEnv | app/backend/app.py:17-19 | In development mode the `.env` file only adds variables: the process environment always wins, and the result holds exactly the keys of both. In production the environment is used as is. |
| Startup.CreateApp | app/backend/app.py:16-34 | The `.env` file is loaded exactly when `RUNNING_IN_PRODUCTION` is unset or empty. In development the credentials and settings are resolved from the process environment with the `.env` variables added beneath it. In production, or with an empty `.env`, they come from the process environment alone. |
| Startup.DotEnvSuppliesMissingKeys | app/backend/app.py:17-23 | In development, a model key or search key that the process environment lacks and `.env` sets gives a key credential wrapping the `.env` value. |
| Startup.Resolve | app/backend/app.py:20-34 | A set model key gives a key credential wrapping exactly that key; the same holds for the search key. One identity credential is built if and only if at least one key is missing. It is the developer-CLI credential with the tenant and timeout 60 when a tenant is set, otherwise the default credential. Every endpoint without a key gets that shared credential. Endpoint and deployment are passed through unchanged. |
| Startup.SearchTool | app/backend/app.py:207-217 | Each of the semantic configuration, identifier, content, embedding and title settings is the configured value when set and non-empty. Otherwise it is "default", "chunk_id", "chunk", "text_vector" or "title" respectively. Endpoint and index are passed through, possibly absent. `use_vector_query` is always true. |
| Startup.ModelKeyIndependentOfSearchKey | app/backend/app.py:22-23 | Once the model key is set, changing or removing the search key leaves the model credential the same key credential. |
| Startup.SearchKeyIndependentOfModelKey | app/backend/app.py:23-34 | Once the search key is set, changing or removing the model key leaves the search credential the same key credential. |
| Startup.NoKeysShareOneCredential | app/backend/app.py:25-34 | With neither key set, both endpoints hold one identical federated credential. |
| Startup.BothKeysBuildNoIdentity | app/backend/app.py:25-26 | With both keys set, no identity credential is constructed and neither endpoint uses one. |
| Startup.CredentialsWellFormed | app/backend/app.py:27-34 | For every environment, each endpoint holds either a key credential with a non-empty secret or the shared identity credential. A developer-CLI credential always carries a non-empty tenant and timeout 60. |
| Startup.SearchSettingsNeverEmpty | app/backend/app.py:211-215 | No search setting that has a default is ever the empty string. |
| Startup.VectorQueryToggleIgnored | app/backend/app.py:216 | Setting, changing or removing `AZURE_SEARCH_USE_VECTOR_QUERY` leaves every resolved setting unchanged. |
| Startup.ProductionIgnoresDotEnv | app/backend/app.py:17-19 | In production, any two `.env` contents give the same configuration, and nothing is loaded. |
| Startup.ProcessVariableWinsOverDotEnv | app/backend/app.py:19 | A variable set in the process environment reads the same after `.env` loading. |
| Provision.LoadAzdEnv | app/backend/setup_intvect.py:46-57 | A non-zero azd return code fails with the command error. With no default entry it fails with "no default env". Otherwise the result is the path of the last entry marked default, and an empty path fails with "no default env". |
| Provision.LastDefaultUnique | app/backend/setup_intvect.py:53-55 | The entry whose path the loop keeps is unique: at most one entry is default with no later default. |
| Provision.ToCreate | app/backend/setup_intvect.py:66-177 | A kind is created exactly when no resource of that kind already has the index name. |
| Provision.SetupSpec | app/backend/setup_intvect.py:62-185 | After setup the name exists in all four kinds. Every resource that existed still exists, and no other name is added. Existing indexer definitions are untouched. A new indexer links the data source, skillset and target index all by the same name. |
| Provision.SetupIdempotent | app/backend/setup_intvect.py:62-185 | A second setup with the same name leaves the state unchanged and has nothing to create. |
| Provision.SetupCreatesOnlyMissing | app/backend/setup_intvect.py:66-177 | A resource is new after setup if and only if it carries the index name and its kind was missing: nothing existing is recreated. |
| Provision.NewIndexerLinksByName | app/backend/setup_intvect.py:178-182 | A newly created indexer names a data source, skillset and target index that all exist after setup. |
| Provision.SearchService.SetupIndex | app/backend/setup_intvect.py:62-185 | Its four guarded creations take the service to `SetupSpec` of the old state. It reports exactly the missing kinds as created, and leaves the running indexers alone. |
| Provision.SearchService.RunIndexer | app/backend/setup_intvect.py:210-215 | Afterwards the indexer is running. A run already in progress (ResourceExistsError) is reported, not raised. |
| Provision.SetupTwice | app/backend/setup_intvect.py:62-185 | Two setups in a row: the first creates the missing kinds, the second creates nothing, and the state is that of one setup. |
| Provision.BaseNameIsLastComponent | app/backend/setup_intvect.py:202 | `BaseName` is the suffix after the last `/`: it contains no `/`, is a suffix of the path, and is preceded by `/` when shorter than the path. |
| Provision.Pending | app/backend/setup_intvect.py:197-208 | The files uploaded are exactly the data files whose base name is not in the blob list taken before the loop. |
| Provision.Uploaded | app/backend/setup_intvect.py:204-208 | After the uploads, the blob names are the old names plus the base names of the uploaded files. |
| Provision.UploadedHoldsLatest | app/backend/setup_intvect.py:208 | With overwrite, a name holds the content of the last upload under that name. |
| Provision.PendingHoldsContent | app/backend/setup_intvect.py:200-208 | After the loop, a file whose name was not in the snapshot, and that no later file shares, is the content of its blob. |
| Provision.UploadedKeeps | app/backend/setup_intvect.py:204-205 | A blob that no upload names keeps its content. |
| Provision.UploadCompletes | app/backend/setup_intvect.py:197-208 | After the loop, every data file's base name is in the container, and the names are exactly the old ones plus the files' names. Every blob that existed before keeps its content. Every newly named blob holds its file's bytes. |
| Provision.PendingNoneWhenPresent | app/backend/setup_intvect.py:204 | When every file's name is already listed, nothing is uploaded. |
| Provision.UploadIdempotent | app/backend/setup_intvect.py:197-208 | A second upload run, against the container the first one left, uploads nothing. |
| Provision.BlobContainer.Create | app/backend/setup_intvect.py:195-196 | Creating a missing container makes it exist, empty. |
| Provision.BlobContainer.UploadBlob | app/backend/setup_intvect.py:208 | An upload with overwrite sets exactly that blob's content. |
| Provision.UploadDocuments | app/backend/setup_intvect.py:187-215 | The container exists afterwards, created only if it did not. Its blobs are `Uploaded` of the old blobs with the `Pending` files, so the lemmas above apply. The indexer is running. |
| Provision.FirstMissing | app/backend/setup_intvect.py:236-246 | The reported name is unset, and every name before it in the list is set: it is the first unset one, as the KeyError order gives. None is reported exactly when all are set. |
| Provision.LoadedEnv | app/backend/setup_intvect.py:59 | `load_dotenv(path, override=True)`: the file's variables replace the process's, other process variables stay, and a missing file loads nothing. The loaded names are exactly the process's names plus the file's. |
| Provision.RunScript | app/backend/setup_intvect.py:218-262 | A non-zero azd return code fails with the command error. No default entry, or an empty path on the last default, fails with "no default env". Otherwise, in the environment loaded from that path: `AZURE_SEARCH_REUSE_EXISTING == "true"` exits as `ReusedExisting`. Else the first missing required variable fails as `MissingVariable`. Else the result is `Provisioned` with the developer-CLI credential for `AZURE_TENANT_ID` and timeout 60, under `AZURE_SEARCH_INDEX`. Failures and reuse change nothing remote. Provisioning leaves the service at `SetupSpec` of the old state, the indexer running, and the blobs as `UploadDocuments` states. |

## Left out

- The realtime relay, `attach_rag_tools` and the `/realtime` route (`app.py:10-11,38,207,219`): their sources are not part of this model, and what they do is concurrent event forwarding. The model stops at the arguments passed to them.
- The system prompt with the intake-record template (`app.py:39-206`). It is a natural-language string. No `store` handler or record validator exists in the modelled code, so the model does no record validation.
- The aiohttp application, routes, static files and `web.run_app` (`app.py:36,221-230`): HTTP plumbing.
- The Azure SDK object contents in `setup_index` (fields, vector-search and semantic configuration, skills, the 3072 embedding dimensions): opaque library configuration. Only resource names, and the three names an indexer links, are kept.
- I/O is given as parameters. The azd command's exit code and its parsed JSON output are inputs. The `.env` files are given as maps. The data folder is a sequence of paths with contents. The log lines are dropped. A malformed JSON output or a record missing `IsDefault` or `DotEnvPath` is not modelled.
- Credential behaviour: token acquisition, refresh and failures belong to the identity library. A credential is only the datatype case chosen. "One shared instance" is modelled as one `federated` value that every keyless endpoint equals.
- Remote failures other than ResourceExistsError on `run_indexer`, such as a create call the service rejects, or running an indexer the service cannot find. The service's answers are not part of the code, so each create call is modelled as succeeding.
- Base names within one data folder are distinct, so the "no later file shares the name" condition of `PendingHoldsContent` always holds for the script's input. The model does not assume it, and states the general overwrite rule instead.
- The order in which `os.scandir` lists files is not specified. The model takes whatever order it is given, and every stated property holds for every order.
- Provision.RunScript: the exit status of `exit()` is not modelled. A reuse run is a `ReusedExisting` result, and the unused endpoint, connection-string and embedding variables are only checked for presence.
