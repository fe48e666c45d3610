/** The model-store operations of `whisper_bridge_mlx_official.py` over
    the Hugging Face hub cache directory: `check_model_status`,
    `download_model`, `list_models` and `delete_model`. The directory is
    a map from folder name to the total size of the files below it. */
module OfficialStore {
  import opened Common
  import opened Text
  import opened OfficialModels
  import opened DownloadMonitor

  /** The dicts returned by `check_model_status` and `download_model`
      (`size_mb` left out). */
  datatype ModelReport =
    | Downloaded(model: string, hfRepo: string, path: string, sizeBytes: nat)
    | NotDownloaded(model: string, hfRepo: string)
    | ReportFailed(model: string, error: string)
  {
    predicate Success() { !ReportFailed? }
  }

  /** The dicts returned by `delete_model` (`freed_mb` left out). */
  datatype DeleteReport =
    | Deleted(model: string, freedBytes: nat)
    | NotDeleted(model: string, error: string)
  {
    predicate Success() { Deleted? }
  }

  /** The dict returned by `list_models`; its `success` is always true. */
  datatype ListReport = ListReport(models: seq<ModelReport>, cacheDir: string)

  /** How `snapshot_download` ended: with the local path it returns, the
      size of the files under that path and the folder's new total; or by
      an interrupt or an exception, possibly leaving a partial folder. */
  datatype FetchOutcome =
    | Fetched(localPath: string, localBytes: nat, folderBytes: nat)
    | Interrupted(partialBytes: Option<nat>)
    | FetchFailed(message: string, partialBytes: Option<nat>)

  const ModelNotFound := "Model not found"
  const InterruptedError := "Download interrupted by user"

  /** The cache folder a UI name resolves to. */
  function FolderFor(modelName: string): (folder: string)
    ensures '/' !in folder && StartsWith(folder, "models--")
  {
    RepoFolder(RepoFor(modelName))
  }

  /** `check_model_status(model_name)`. */
  function CheckModelStatus(store: map<string, nat>, cacheDir: string, modelName: string): (r: ModelReport)
    ensures r.Success() && r.model == modelName && r.hfRepo == RepoFor(modelName)
    ensures r.Downloaded? <==> FolderFor(modelName) in store
    ensures r.Downloaded? ==> r.sizeBytes == store[FolderFor(modelName)]
                              && r.path == Join(cacheDir, FolderFor(modelName))
  {
    var repo := RepoFor(modelName);
    var folder := RepoFolder(repo);
    if folder in store then Downloaded(modelName, repo, Join(cacheDir, folder), store[folder])
    else NotDownloaded(modelName, repo)
  }

  /** Removing one model's folder makes exactly the models that share its
      repository read as not downloaded; every other model reads as before. */
  lemma {:induction false} DeleteAffectsOnlySharedRepo(store: map<string, nat>, cacheDir: string,
                                                         deleted: string, other: string)
    ensures CheckModelStatus(store - {FolderFor(deleted)}, cacheDir, other)
         == if RepoFor(deleted) == RepoFor(other) then NotDownloaded(other, RepoFor(other))
            else CheckModelStatus(store, cacheDir, other)
  {
    FolderDeterminesRepo(deleted, other);
  }

  /** After a folder for a model is written, the model reads as downloaded with that size. */
  lemma {:induction false} StoreThenCheck(store: map<string, nat>, cacheDir: string, modelName: string, bytes: nat)
    ensures CheckModelStatus(store[FolderFor(modelName) := bytes], cacheDir, modelName)
         == Downloaded(modelName, RepoFor(modelName), Join(cacheDir, FolderFor(modelName)), bytes)
  { }

  /** The store after an interrupted or failed download: whatever was written stays. */
  function Leftover(store: map<string, nat>, folder: string, partial: Option<nat>): map<string, nat> {
    if partial.Some? then store[folder := partial.value] else store
  }

  /** What `delete_model` reports for a cache holding `store`; `removal`
      is the error `shutil.rmtree` raises, if any. */
  function DeleteResult(store: map<string, nat>, modelName: string, removal: Option<string>): (r: DeleteReport)
    ensures r.model == modelName
    ensures r.Success() <==> FolderFor(modelName) in store && removal.None?
    ensures r.Deleted? ==> r.freedBytes == store[FolderFor(modelName)]
    ensures FolderFor(modelName) !in store ==> r == NotDeleted(modelName, ModelNotFound)
    ensures FolderFor(modelName) in store && removal.Some? ==> r == NotDeleted(modelName, removal.value)
  {
    var folder := FolderFor(modelName);
    if folder !in store then NotDeleted(modelName, ModelNotFound)
    else if removal.Some? then NotDeleted(modelName, removal.value)
    else Deleted(modelName, store[folder])
  }

  /** The cache after `delete_model`: the model's folder is gone exactly
      when the removal succeeded; every other folder stays as it was. */
  function DeleteFolders(store: map<string, nat>, modelName: string, removal: Option<string>): (s: map<string, nat>)
    ensures FolderFor(modelName) in s <==> FolderFor(modelName) in store && removal.Some?
    ensures forall f :: f in s ==> f in store && s[f] == store[f]
    ensures forall f :: f in store && f != FolderFor(modelName) ==> f in s
  {
    var folder := FolderFor(modelName);
    if folder in store && removal.None? then store - {folder} else store
  }

  /** Deleting a model that was just deleted finds nothing and changes nothing. */
  lemma {:induction false} DeleteTwiceNotFound(store: map<string, nat>, modelName: string, removal: Option<string>)
    requires FolderFor(modelName) in store
    ensures var after := DeleteFolders(store, modelName, None);
            && DeleteResult(after, modelName, removal) == NotDeleted(modelName, ModelNotFound)
            && DeleteFolders(after, modelName, removal) == after
  { }

  /** What `download_model` reports for a cache holding `store`, when the
      fetch ends as `fetch` says. A folder already present gives the
      report `check_model_status` gives. */
  function DownloadResult(store: map<string, nat>, cacheDir: string, modelName: string, fetch: FetchOutcome): (r: ModelReport)
    ensures r.model == modelName
    ensures FolderFor(modelName) in store ==> r == CheckModelStatus(store, cacheDir, modelName)
    ensures FolderFor(modelName) !in store ==> (r.Success() <==> fetch.Fetched?)
    ensures FolderFor(modelName) !in store && fetch.Fetched? ==>
              r == Downloaded(modelName, RepoFor(modelName), fetch.localPath, fetch.localBytes)
    ensures FolderFor(modelName) !in store && fetch.Interrupted? ==> r == ReportFailed(modelName, InterruptedError)
    ensures FolderFor(modelName) !in store && fetch.FetchFailed? ==> r == ReportFailed(modelName, fetch.message)
  {
    var repo := RepoFor(modelName);
    var folder := RepoFolder(repo);
    if folder in store then Downloaded(modelName, repo, Join(cacheDir, folder), store[folder])
    else match fetch
      case Fetched(localPath, localBytes, _) => Downloaded(modelName, repo, localPath, localBytes)
      case Interrupted(_) => ReportFailed(modelName, InterruptedError)
      case FetchFailed(message, _) => ReportFailed(modelName, message)
  }

  /** The cache after `download_model`: a present folder is left alone; a
      completed fetch records the folder's new total; an interrupted or
      failed one keeps whatever it wrote. No other folder changes. */
  function DownloadFolders(store: map<string, nat>, modelName: string, fetch: FetchOutcome): (s: map<string, nat>)
    ensures FolderFor(modelName) in store ==> s == store
    ensures forall f :: f != FolderFor(modelName) ==> (f in s <==> f in store)
    ensures forall f :: f in s && f != FolderFor(modelName) ==> s[f] == store[f]
    ensures FolderFor(modelName) !in store && fetch.Fetched? ==>
              FolderFor(modelName) in s && s[FolderFor(modelName)] == fetch.folderBytes
    ensures FolderFor(modelName) !in store && !fetch.Fetched? ==>
              s == Leftover(store, FolderFor(modelName), fetch.partialBytes)
  {
    var folder := FolderFor(modelName);
    if folder in store then store
    else match fetch
      case Fetched(_, _, folderBytes) => store[folder := folderBytes]
      case Interrupted(partial) => Leftover(store, folder, partial)
      case FetchFailed(_, partial) => Leftover(store, folder, partial)
  }

  /** After a completed download the model reads as downloaded, and a
      second download of it fetches nothing and succeeds whatever happens. */
  lemma {:induction false} DownloadThenCheck(store: map<string, nat>, cacheDir: string, modelName: string,
                                             fetch: FetchOutcome, again: FetchOutcome)
    requires fetch.Fetched?
    ensures var after := DownloadFolders(store, modelName, fetch);
            && CheckModelStatus(after, cacheDir, modelName).Downloaded?
            && DownloadResult(after, cacheDir, modelName, again).Success()
            && DownloadFolders(after, modelName, again) == after
  { }

  /** The hub cache directory (`~/.cache/huggingface/hub`, already expanded)
      and the repository folders in it. */
  class HubCache {
    const cacheDir: string
    var folders: map<string, nat>

    constructor (cacheDir: string, folders: map<string, nat>)
      ensures this.cacheDir == cacheDir && this.folders == folders
    {
      this.cacheDir := cacheDir;
      this.folders := folders;
    }

    /** `list_models()`: one status per mapping key, in key order. */
    method ListModels() returns (r: ListReport)
      ensures r.cacheDir == cacheDir
      ensures |r.models| == |ModelMapping|
      ensures forall i :: 0 <= i < |ModelMapping| ==>
                r.models[i] == CheckModelStatus(folders, cacheDir, ModelMapping[i].0)
    {
      var models := Keys(ModelMapping);
      var modelInfo := StatusOfEach(models);
      r := ListReport(modelInfo, cacheDir);
    }

    /** The loop of `list_models`: `check_model_status` of each name, in order. */
    method StatusOfEach(models: seq<string>) returns (modelInfo: seq<ModelReport>)
      ensures |modelInfo| == |models|
      ensures forall k :: 0 <= k < |models| ==> modelInfo[k] == CheckModelStatus(folders, cacheDir, models[k])
    {
      modelInfo := [];
      var i := 0;
      while i < |models|
        invariant 0 <= i <= |models|
        invariant |modelInfo| == i
        invariant forall k :: 0 <= k < i ==> modelInfo[k] == CheckModelStatus(folders, cacheDir, models[k])
      {
        var status := CheckModelStatus(folders, cacheDir, models[i]);
        modelInfo := modelInfo + [status];
        i := i + 1;
      }
    }

    /** `delete_model(model_name)`. `removal` is the error `shutil.rmtree`
        raises, if any. */
    method DeleteModel(modelName: string, removal: Option<string>) returns (r: DeleteReport)
      modifies this
      ensures r == DeleteResult(old(folders), modelName, removal)
      ensures folders == DeleteFolders(old(folders), modelName, removal)
    {
      var hfRepo := RepoFor(modelName);
      var repoFolder := RepoFolder(hfRepo);
      if repoFolder in folders {
        var sizeBytes := folders[repoFolder];
        if removal.Some? {
          return NotDeleted(modelName, removal.value);
        }
        folders := folders - {repoFolder};
        r := Deleted(modelName, sizeBytes);
      } else {
        r := NotDeleted(modelName, ModelNotFound);
      }
    }

    /** `download_model(model_name)`. An existing folder short-circuits:
        nothing is fetched and nothing is monitored. Otherwise the monitor
        runs over `polls` (its iterations before the fetch ended) and the
        fetch ends as `fetch` says. `progress` is what goes to stderr as
        `PROGRESS:` lines; `consumed` is the number of polls the monitor
        took before it stopped. Only a completed fetch appends the
        completion event, after every event of the monitor. */
    method DownloadModel(modelName: string, start: real, polls: seq<Poll>, fetch: FetchOutcome)
      returns (r: ModelReport, progress: seq<ProgressEvent>, ghost consumed: nat)
      modifies this
      ensures r == DownloadResult(old(folders), cacheDir, modelName, fetch)
      ensures folders == DownloadFolders(old(folders), modelName, fetch)
      ensures FolderFor(modelName) in old(folders) ==> progress == [] && consumed == 0
      ensures FolderFor(modelName) !in old(folders) && fetch.Fetched? ==>
                && |progress| > 0
                && progress[|progress| - 1] == Complete(modelName, fetch.localBytes, fetch.localBytes, 100.0)
      ensures FolderFor(modelName) !in old(folders) && !fetch.Fetched? ==>
                forall e :: e in progress ==> Reported(e, modelName, ExpectedSize(modelName))
      ensures FolderFor(modelName) !in old(folders) ==>
                Monitored(if fetch.Fetched? then progress[..|progress| - 1] else progress,
                          modelName, start, polls, consumed)
    {
      var hfRepo := RepoFor(modelName);
      var repoFolder := RepoFolder(hfRepo);
      var repoPath := Join(cacheDir, repoFolder);

      if repoFolder in folders {
        return Downloaded(modelName, hfRepo, repoPath, folders[repoFolder]), [], 0;
      }

      var events, _, polled := MonitorDownload(modelName, start, polls);
      consumed := polled;
      assert Monitored(events, modelName, start, polls, consumed);
      match fetch {
        case Fetched(localPath, localBytes, folderBytes) =>
          folders := folders[repoFolder := folderBytes];
          progress := events + [Complete(modelName, localBytes, localBytes, 100.0)];
          assert progress[..|progress| - 1] == events;
          r := Downloaded(modelName, hfRepo, localPath, localBytes);
        case Interrupted(partial) =>
          folders := Leftover(folders, repoFolder, partial);
          progress := events;
          r := ReportFailed(modelName, InterruptedError);
        case FetchFailed(message, partial) =>
          folders := Leftover(folders, repoFolder, partial);
          progress := events;
          r := ReportFailed(modelName, message);
      }
    }
  }
}
