/**
 * The provisioning script app/backend/setup_intvect.py: find the default
 * azd environment, then create the search data source, index, skillset and
 * indexer and upload the data files, each only if it does not exist yet.
 *
 * The remote search service and the storage container are abstract state:
 * the names of the resources they hold.
 */
module Provision {
  import opened Wrappers
  import opened Environment
  import Startup

  // ---------------------------------------------------------------------------
  // load_azd_env
  // ---------------------------------------------------------------------------

  /** One record of `azd env list -o json`. */
  datatype EnvEntry = EnvEntry(dotEnvPath: string, isDefault: bool)

  /** The exceptions the script raises before it touches any remote resource. */
  datatype ProvisionError =
    | AzdCommandFailed             // "Error loading azd env"
    | NoDefaultEnv                 // "No default azd env file found"
    | MissingVariable(name: string) // KeyError from os.environ[name]

  /** Entry `i` is marked default and no later entry is. */
  predicate LastDefaultAt(entries: seq<EnvEntry>, i: int)
  {
    0 <= i < |entries| && entries[i].isDefault &&
    forall j :: i < j < |entries| ==> !entries[j].isDefault
  }

  /**
   * The path load_azd_env loads. `returnCode` and `entries` are the exit code
   * and parsed output of the azd command. The loop overwrites its result at
   * every default entry, so the last default entry decides.
   */
  method LoadAzdEnv(returnCode: int, entries: seq<EnvEntry>) returns (r: Result<string, ProvisionError>)
    ensures returnCode != 0 ==> r == Failure(AzdCommandFailed)
    ensures returnCode == 0 && (forall j :: 0 <= j < |entries| ==> !entries[j].isDefault) ==>
      r == Failure(NoDefaultEnv)
    ensures forall i :: returnCode == 0 && LastDefaultAt(entries, i) ==>
      r == if entries[i].dotEnvPath == "" then Failure(NoDefaultEnv) else Success(entries[i].dotEnvPath)
  {
    if returnCode != 0 {
      return Failure(AzdCommandFailed);
    }
    var path: Option<string> := None;
    ghost var at := -1;
    for k := 0 to |entries|
      invariant -1 <= at < k
      invariant at == -1 ==> path == None && forall j :: 0 <= j < k ==> !entries[j].isDefault
      invariant at >= 0 ==> path == Some(entries[at].dotEnvPath) && entries[at].isDefault
      invariant at >= 0 ==> forall j :: at < j < k ==> !entries[j].isDefault
    {
      if entries[k].isDefault {
        path := Some(entries[k].dotEnvPath);
        at := k;
      }
    }
    if !IsSet(path) {
      return Failure(NoDefaultEnv);
    }
    r := Success(path.value);
  }

  /** At most one entry is the last default one. */
  lemma LastDefaultUnique(entries: seq<EnvEntry>, i: int, j: int)
    requires LastDefaultAt(entries, i) && LastDefaultAt(entries, j)
    ensures i == j
  {
  }

  // ---------------------------------------------------------------------------
  // setup_index
  // ---------------------------------------------------------------------------

  /** The four kinds of search resource the script provisions. */
  datatype Kind = DataSource | Index | Skillset | Indexer

  /** The resources an indexer ties together, by name. */
  datatype IndexerDef = IndexerDef(dataSourceName: string, skillsetName: string, targetIndexName: string)

  /** The resource names held by the search service. */
  datatype Snapshot = Snapshot(
    dataSources: set<string>,
    indexes: set<string>,
    skillsets: set<string>,
    indexers: map<string, IndexerDef>)

  /** Whether a resource of kind `k` named `name` exists. */
  predicate Has(s: Snapshot, k: Kind, name: string)
  {
    match k
    case DataSource => name in s.dataSources
    case Index => name in s.indexes
    case Skillset => name in s.skillsets
    case Indexer => name in s.indexers
  }

  /** The kinds setup_index creates: those with no resource named `name` yet. */
  function ToCreate(s: Snapshot, name: string): (ks: set<Kind>)
    ensures forall k :: k in ks <==> !Has(s, k, name)
  {
    (if name in s.dataSources then {} else {DataSource}) +
    (if name in s.indexes then {} else {Index}) +
    (if name in s.skillsets then {} else {Skillset}) +
    (if name in s.indexers then {} else {Indexer})
  }

  /** The service after setup_index(name), as a value. */
  function SetupSpec(s: Snapshot, name: string): (t: Snapshot)
    ensures forall k :: Has(t, k, name)
    ensures forall k, n :: Has(s, k, n) ==> Has(t, k, n)
    ensures forall k, n :: Has(t, k, n) && n != name ==> Has(s, k, n)
    ensures forall n :: n in s.indexers ==> n in t.indexers && t.indexers[n] == s.indexers[n]
    ensures name !in s.indexers ==> name in t.indexers && t.indexers[name] == IndexerDef(name, name, name)
  {
    Snapshot(
      s.dataSources + {name},
      s.indexes + {name},
      s.skillsets + {name},
      if name in s.indexers then s.indexers else s.indexers[name := IndexerDef(name, name, name)])
  }

  /** A second setup with the same name changes nothing and creates nothing. */
  lemma SetupIdempotent(s: Snapshot, name: string)
    ensures SetupSpec(SetupSpec(s, name), name) == SetupSpec(s, name)
    ensures ToCreate(SetupSpec(s, name), name) == {}
  {
    var t := SetupSpec(s, name);
    assert t.indexers == SetupSpec(t, name).indexers;
  }

  /** Setup never recreates: it creates exactly the missing kinds, and only under `name`. */
  lemma SetupCreatesOnlyMissing(s: Snapshot, name: string, k: Kind, n: string)
    ensures Has(SetupSpec(s, name), k, n) && !Has(s, k, n) <==> n == name && k in ToCreate(s, name)
  {
  }

  /** Once the indexer for `name` exists, it reads from and writes to the resources named `name`. */
  lemma NewIndexerLinksByName(s: Snapshot, name: string)
    requires name !in s.indexers
    ensures var d := SetupSpec(s, name).indexers[name];
      Has(SetupSpec(s, name), DataSource, d.dataSourceName) &&
      Has(SetupSpec(s, name), Skillset, d.skillsetName) &&
      Has(SetupSpec(s, name), Index, d.targetIndexName)
  {
  }

  /** The search service, with the state the script reads and changes. */
  class SearchService {
    var dataSources: set<string>
    var indexes: set<string>
    var skillsets: set<string>
    var indexers: map<string, IndexerDef>
    /** Indexers whose run has started. */
    var running: set<string>

    function State(): Snapshot
      reads this
    {
      Snapshot(dataSources, indexes, skillsets, indexers)
    }

    constructor (s: Snapshot, running: set<string>)
      ensures State() == s && this.running == running
    {
      dataSources, indexes, skillsets, indexers := s.dataSources, s.indexes, s.skillsets, s.indexers;
      this.running := running;
    }

    /**
     * setup_index: four guarded creations, each under `name`. The result is
     * the set of kinds for which a create call was made.
     */
    method SetupIndex(name: string) returns (created: set<Kind>)
      modifies this
      ensures State() == SetupSpec(old(State()), name)
      ensures created == ToCreate(old(State()), name)
      ensures running == old(running)
    {
      ghost var s := State();
      created := {};
      if name !in dataSources {
        dataSources := dataSources + {name};
        created := created + {DataSource};
      }
      assert dataSources == s.dataSources + {name};
      if name !in indexes {
        indexes := indexes + {name};
        created := created + {Index};
      }
      assert indexes == s.indexes + {name};
      if name !in skillsets {
        skillsets := skillsets + {name};
        created := created + {Skillset};
      }
      assert skillsets == s.skillsets + {name};
      if name !in indexers {
        indexers := indexers[name := IndexerDef(name, name, name)];
        created := created + {Indexer};
      }
    }

    /**
     * run_indexer inside its try block: a run that is already in progress
     * raises ResourceExistsError, which the script swallows.
     */
    method RunIndexer(name: string) returns (alreadyRunning: bool)
      modifies this`running
      ensures alreadyRunning == (name in old(running))
      ensures running == old(running) + {name}
    {
      alreadyRunning := name in running;
      if !alreadyRunning {
        running := running + {name};
      }
    }
  }

  /** Running setup twice: the second run makes no create call and leaves the state alone. */
  method SetupTwice(svc: SearchService, name: string) returns (first: set<Kind>, second: set<Kind>)
    modifies svc
    ensures first == ToCreate(old(svc.State()), name)
    ensures second == {}
    ensures svc.State() == SetupSpec(old(svc.State()), name)
  {
    first := svc.SetupIndex(name);
    SetupIdempotent(old(svc.State()), name);
    second := svc.SetupIndex(name);
  }

  // ---------------------------------------------------------------------------
  // upload_documents
  // ---------------------------------------------------------------------------

  type Bytes = seq<bv8>

  /** A file of the data folder: its path and content. */
  datatype DataFile = DataFile(path: string, content: Bytes)

  /** `os.path.basename`: what follows the last `/`. */
  function BaseName(p: string): string
  {
    if |p| == 0 || p[|p| - 1] == '/' then "" else BaseName(p[..|p| - 1]) + [p[|p| - 1]]
  }

  /** BaseName is the longest suffix of the path without a `/`. */
  lemma {:induction false} BaseNameIsLastComponent(p: string)
    ensures var r := BaseName(p);
      '/' !in r && |r| <= |p| && r == p[|p| - |r|..] && (|r| < |p| ==> p[|p| - |r| - 1] == '/')
  {
    if |p| > 0 && p[|p| - 1] != '/' {
      var q := p[..|p| - 1];
      BaseNameIsLastComponent(q);
      var rq := BaseName(q);
      var r := rq + [p[|p| - 1]];
      assert BaseName(p) == r;
      assert q[|q| - |rq|..] == p[|p| - |r|..|p| - 1];
      assert p[|p| - |r|..] == p[|p| - |r|..|p| - 1] + [p[|p| - 1]];
      assert |r| < |p| ==> p[|p| - |r| - 1] == q[|q| - |rq| - 1];
    }
  }

  /** The blob names of some files. */
  function Names(files: seq<DataFile>): set<string>
  {
    set f | f in files :: BaseName(f.path)
  }

  /** The files the loop uploads: those whose base name is not in the `existing` snapshot. */
  function Pending(files: seq<DataFile>, existing: set<string>): (p: seq<DataFile>)
    ensures forall f {:trigger f in p} :: f in p ==> f in files && BaseName(f.path) !in existing
    ensures forall f {:trigger f in files} :: f in files && BaseName(f.path) !in existing ==> f in p
  {
    if files == [] then []
    else
      var f := files[|files| - 1];
      var rest := Pending(files[..|files| - 1], existing);
      assert forall g :: g in files ==> g in files[..|files| - 1] || g == f;
      if BaseName(f.path) in existing then rest else rest + [f]
  }

  /** The blobs after uploading `uploads` in order, each with overwrite. */
  function Uploaded(blobs: map<string, Bytes>, uploads: seq<DataFile>): (b: map<string, Bytes>)
    ensures b.Keys == blobs.Keys + Names(uploads)
  {
    if uploads == [] then blobs
    else
      var f := uploads[|uploads| - 1];
      Uploaded(blobs, uploads[..|uploads| - 1])[BaseName(f.path) := f.content]
  }

  /** A blob no upload names keeps its content. */
  lemma {:induction false} UploadedKeeps(blobs: map<string, Bytes>, uploads: seq<DataFile>, n: string)
    requires n in blobs && n !in Names(uploads)
    ensures Uploaded(blobs, uploads)[n] == blobs[n]
  {
    if uploads != [] {
      var rest := uploads[..|uploads| - 1];
      assert Names(rest) <= Names(uploads) by {
        assert forall g :: g in rest ==> g in uploads;
      }
      UploadedKeeps(blobs, rest, n);
    }
  }

  /** An uploaded name holds the content of the last upload under that name. */
  lemma {:induction false} UploadedHoldsLatest(blobs: map<string, Bytes>, uploads: seq<DataFile>, i: nat)
    requires i < |uploads|
    requires forall j :: i < j < |uploads| ==> BaseName(uploads[j].path) != BaseName(uploads[i].path)
    ensures BaseName(uploads[i].path) in Uploaded(blobs, uploads)
    ensures Uploaded(blobs, uploads)[BaseName(uploads[i].path)] == uploads[i].content
  {
    if i < |uploads| - 1 {
      DropLastKeepsLaterNames(uploads, i);
      UploadedHoldsLatest(blobs, uploads[..|uploads| - 1], i);
    }
  }

  /**
   * After the loop a file whose name was not listed before, and that no later
   * file shares, is the content of its blob.
   */
  lemma {:induction false} PendingHoldsContent(blobs: map<string, Bytes>, files: seq<DataFile>, existing: set<string>, i: nat)
    requires i < |files| && BaseName(files[i].path) !in existing
    requires forall j :: i < j < |files| ==> BaseName(files[j].path) != BaseName(files[i].path)
    ensures BaseName(files[i].path) in Uploaded(blobs, Pending(files, existing))
    ensures Uploaded(blobs, Pending(files, existing))[BaseName(files[i].path)] == files[i].content
  {
    UploadedLast(blobs, files, existing);
    if i < |files| - 1 {
      DropLastKeepsLaterNames(files, i);
      PendingHoldsContent(blobs, files[..|files| - 1], existing, i);
    }
  }

  /** The blobs after the loop, seen as the blobs before its last iteration plus that iteration. */
  lemma UploadedLast(blobs: map<string, Bytes>, files: seq<DataFile>, existing: set<string>)
    requires files != []
    ensures var f := files[|files| - 1];
      var before := Uploaded(blobs, Pending(files[..|files| - 1], existing));
      Uploaded(blobs, Pending(files, existing)) ==
        if BaseName(f.path) in existing then before else before[BaseName(f.path) := f.content]
  {
    var f := files[|files| - 1];
    PendingLast(files, existing);
    if BaseName(f.path) !in existing {
      UploadedSnoc(blobs, Pending(files[..|files| - 1], existing), f);
    }
  }

  /** Dropping the last file keeps file `i` and the names of the files after it. */
  lemma DropLastKeepsLaterNames(files: seq<DataFile>, i: nat)
    requires i < |files| - 1
    requires forall j :: i < j < |files| ==> BaseName(files[j].path) != BaseName(files[i].path)
    ensures var rest := files[..|files| - 1];
      rest[i] == files[i] && forall j :: i < j < |rest| ==> BaseName(rest[j].path) != BaseName(rest[i].path)
  {
    var rest := files[..|files| - 1];
    forall j | i < j < |rest|
      ensures BaseName(rest[j].path) != BaseName(rest[i].path)
    {
      assert rest[j] == files[j];
    }
  }

  /** The last data file is uploaded after the others, unless its name is listed. */
  lemma PendingLast(files: seq<DataFile>, existing: set<string>)
    requires files != []
    ensures var f := files[|files| - 1];
      Pending(files, existing) ==
        if BaseName(f.path) in existing then Pending(files[..|files| - 1], existing)
        else Pending(files[..|files| - 1], existing) + [f]
  {
  }

  /** Uploading one more file overwrites exactly that file's blob. */
  lemma UploadedSnoc(blobs: map<string, Bytes>, p: seq<DataFile>, f: DataFile)
    ensures Uploaded(blobs, p + [f]) == Uploaded(blobs, p)[BaseName(f.path) := f.content]
  {
    assert (p + [f])[..|p|] == p;
  }

  /**
   * After the loop every data file has a blob, every blob that existed
   * before is untouched, and every newly named blob holds its file's content.
   */
  lemma UploadCompletes(blobs: map<string, Bytes>, files: seq<DataFile>)
    ensures Names(files) <= Uploaded(blobs, Pending(files, blobs.Keys)).Keys
    ensures Uploaded(blobs, Pending(files, blobs.Keys)).Keys == blobs.Keys + Names(files)
    ensures forall n :: n in blobs ==> Uploaded(blobs, Pending(files, blobs.Keys))[n] == blobs[n]
    ensures forall i ::
      (0 <= i < |files| && BaseName(files[i].path) !in blobs &&
       forall j :: i < j < |files| ==> BaseName(files[j].path) != BaseName(files[i].path)) ==>
        Uploaded(blobs, Pending(files, blobs.Keys))[BaseName(files[i].path)] == files[i].content
  {
    var p := Pending(files, blobs.Keys);
    assert Names(p) <= Names(files);
    forall n | n in Names(files)
      ensures n in blobs.Keys + Names(p)
    {
      var f :| f in files && BaseName(f.path) == n;
      if n !in blobs { assert f in p; }
    }
    forall n | n in blobs
      ensures Uploaded(blobs, p)[n] == blobs[n]
    {
      UploadedKeeps(blobs, p, n);
    }
    forall i | 0 <= i < |files| && BaseName(files[i].path) !in blobs &&
      (forall j :: i < j < |files| ==> BaseName(files[j].path) != BaseName(files[i].path))
      ensures Uploaded(blobs, p)[BaseName(files[i].path)] == files[i].content
    {
      PendingHoldsContent(blobs, files, blobs.Keys, i);
    }
  }

  /** Nothing is pending once every file's name is already present. */
  lemma PendingNoneWhenPresent(files: seq<DataFile>, existing: set<string>)
    requires Names(files) <= existing
    ensures Pending(files, existing) == []
  {
  }

  /** A second upload run finds every file present and uploads nothing. */
  lemma UploadIdempotent(blobs: map<string, Bytes>, files: seq<DataFile>)
    ensures Pending(files, Uploaded(blobs, Pending(files, blobs.Keys)).Keys) == []
  {
    UploadCompletes(blobs, files);
    PendingNoneWhenPresent(files, Uploaded(blobs, Pending(files, blobs.Keys)).Keys);
  }

  /** One more iteration of the upload loop, in terms of the specification. */
  lemma UploadStep(blobs: map<string, Bytes>, files: seq<DataFile>, existing: set<string>, i: nat)
    requires i < |files|
    ensures var before := Uploaded(blobs, Pending(files[..i], existing));
      Uploaded(blobs, Pending(files[..i + 1], existing)) ==
        if BaseName(files[i].path) in existing then before
        else before[BaseName(files[i].path) := files[i].content]
  {
    assert files[..i + 1][..i] == files[..i];
    var p := Pending(files[..i], existing);
    if BaseName(files[i].path) !in existing {
      assert (p + [files[i]])[..|p|] == p;
    }
  }

  /** The storage container the data files go to. */
  class BlobContainer {
    var present: bool
    var blobs: map<string, Bytes>

    /** A container that does not exist holds no blobs. */
    predicate Valid()
      reads this
    {
      present || blobs == map[]
    }

    constructor (present: bool, blobs: map<string, Bytes>)
      requires present || blobs == map[]
      ensures Valid() && this.present == present && this.blobs == blobs
    {
      this.present, this.blobs := present, blobs;
    }

    /** create_container on a container that does not exist. */
    method Create()
      requires Valid() && !present
      modifies this
      ensures Valid() && present && blobs == map[]
    {
      present := true;
    }

    /** upload_blob(name, content, overwrite=True). */
    method UploadBlob(name: string, content: Bytes)
      requires Valid() && present
      modifies this`blobs
      ensures Valid() && blobs == old(blobs)[name := content]
    {
      blobs := blobs[name := content];
    }
  }

  /**
   * upload_documents: create the container if needed, upload each file whose
   * base name was not listed before the loop, then start the indexer.
   */
  method UploadDocuments(svc: SearchService, indexerName: string, container: BlobContainer, files: seq<DataFile>)
    requires container.Valid()
    modifies svc`running, container
    ensures container.Valid() && container.present
    ensures container.blobs == Uploaded(old(container.blobs), Pending(files, old(container.blobs).Keys))
    ensures svc.running == old(svc.running) + {indexerName}
  {
    ghost var initial := container.blobs;
    if !container.present {
      container.Create();
    }
    var existing := container.blobs.Keys;
    assert existing == initial.Keys;
    assert files[..0] == [];
    for i := 0 to |files|
      invariant container.Valid() && container.present
      invariant container.blobs == Uploaded(initial, Pending(files[..i], existing))
      invariant svc.running == old(svc.running)
    {
      var filename := BaseName(files[i].path);
      UploadStep(initial, files, existing, i);
      if filename !in existing {
        container.UploadBlob(filename, files[i].content);
      }
    }
    assert files[..|files|] == files;
    assert container.blobs == Uploaded(initial, Pending(files, initial.Keys));
    var _ := svc.RunIndexer(indexerName);
  }

  // ---------------------------------------------------------------------------
  // __main__
  // ---------------------------------------------------------------------------

  const ReuseExisting := "AZURE_SEARCH_REUSE_EXISTING"

  /** The variables the script reads with `os.environ[...]`, in the order it reads them. */
  const Required := [
    "AZURE_SEARCH_INDEX", "AZURE_OPENAI_ENDPOINT", "AZURE_OPENAI_EMBEDDING_DEPLOYMENT",
    "AZURE_OPENAI_EMBEDDING_MODEL", "AZURE_SEARCH_ENDPOINT", "AZURE_STORAGE_ENDPOINT",
    "AZURE_STORAGE_CONNECTION_STRING", "AZURE_STORAGE_CONTAINER", "AZURE_TENANT_ID"]

  /** The first variable of `names` that is unset, as the KeyError reports it. */
  function FirstMissing(env: Env, names: seq<string>): (r: Option<string>)
    ensures r == None <==> forall n :: n in names ==> n in env
    ensures r.Some? ==> r.value in names && r.value !in env
    ensures r.Some? ==>
      exists i :: 0 <= i < |names| && names[i] == r.value && forall j :: 0 <= j < i ==> names[j] in env
  {
    if names == [] then None
    else if names[0] !in env then Some(names[0])
    else FirstMissing(env, names[1..])
  }

  /**
   * The environment after `load_dotenv(path, override=True)`: the file's
   * variables replace the process's, and a missing file loads nothing.
   */
  function LoadedEnv(processEnv: Env, envFiles: map<string, Env>, path: string): (e: Env)
    ensures path in envFiles ==> forall n :: n in envFiles[path] ==> n in e && e[n] == envFiles[path][n]
    ensures forall n :: n in processEnv && (path !in envFiles || n !in envFiles[path]) ==> n in e && e[n] == processEnv[n]
    ensures path !in envFiles ==> e == processEnv
    ensures e.Keys == processEnv.Keys + (if path in envFiles then envFiles[path].Keys else {})
  {
    processEnv + (if path in envFiles then envFiles[path] else map[])
  }

  /** How a run of the script ends when it raises nothing. */
  datatype Finished =
    | ReusedExisting
    | Provisioned(credential: Startup.Cred, indexName: string)

  /**
   * The script's main block. `azdReturnCode` and `azdEntries` are what the
   * azd command printed, `envFiles` the `.env` files by path, `processEnv`
   * the environment it was started in and `files` the data folder.
   */
  method RunScript(svc: SearchService, container: BlobContainer, processEnv: Env,
              azdReturnCode: int, azdEntries: seq<EnvEntry>, envFiles: map<string, Env>,
              files: seq<DataFile>)
    returns (r: Result<Finished, ProvisionError>)
    requires container.Valid()
    modifies svc, container
    ensures container.Valid()
    // load_azd_env fails first.
    ensures azdReturnCode != 0 ==> r == Failure(AzdCommandFailed)
    ensures azdReturnCode == 0 && (forall j :: 0 <= j < |azdEntries| ==> !azdEntries[j].isDefault) ==>
      r == Failure(NoDefaultEnv)
    ensures forall i :: azdReturnCode == 0 && LastDefaultAt(azdEntries, i) && azdEntries[i].dotEnvPath == "" ==>
      r == Failure(NoDefaultEnv)
    // Then the loaded environment decides: reuse, a missing variable, or provisioning.
    ensures forall i :: azdReturnCode == 0 && LastDefaultAt(azdEntries, i) && azdEntries[i].dotEnvPath != "" ==>
      var e := LoadedEnv(processEnv, envFiles, azdEntries[i].dotEnvPath);
      var missing := FirstMissing(e, Required);
      && (Get(e, ReuseExisting) == Some("true") ==> r == Success(ReusedExisting))
      && (Get(e, ReuseExisting) != Some("true") && missing.Some? ==> r == Failure(MissingVariable(missing.value)))
      && (Get(e, ReuseExisting) != Some("true") && missing == None ==>
            r == Success(Provisioned(
              Startup.DeveloperCliCredential(e["AZURE_TENANT_ID"], Startup.DeveloperCliTimeout),
              e["AZURE_SEARCH_INDEX"])))
    // What a run changed.
    ensures !r.Success? || r.value.ReusedExisting? ==>
      unchanged(svc) && unchanged(container)
    ensures r.Success? && r.value.Provisioned? ==>
      var name := r.value.indexName;
      && svc.State() == SetupSpec(old(svc.State()), name)
      && svc.running == old(svc.running) + {name}
      && container.present
      && container.blobs == Uploaded(old(container.blobs), Pending(files, old(container.blobs).Keys))
      && r.value.credential.DeveloperCliCredential?
      && r.value.credential.processTimeout == Startup.DeveloperCliTimeout
  {
    var loaded := LoadAzdEnv(azdReturnCode, azdEntries);
    if loaded.Failure? {
      return Failure(loaded.error);
    }
    var path := loaded.value;
    var env := LoadedEnv(processEnv, envFiles, path);
    if Get(env, ReuseExisting) == Some("true") {
      return Success(ReusedExisting);
    }
    var missing := FirstMissing(env, Required);
    if missing.Some? {
      return Failure(MissingVariable(missing.value));
    }
    var indexName := env["AZURE_SEARCH_INDEX"];
    var credential := Startup.DeveloperCliCredential(env["AZURE_TENANT_ID"], Startup.DeveloperCliTimeout);
    var _ := svc.SetupIndex(indexName);
    UploadDocuments(svc, indexName, container, files);
    r := Success(Provisioned(credential, indexName));
  }
}
