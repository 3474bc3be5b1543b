/**
 * app/api/endpoints/repositories.py: the HTTP endpoints over the repository
 * store and the two background jobs that fill a repository in.
 */
module RepositoriesApi {
  import opened Wrappers
  import opened Strings
  import opened Errors
  import opened Models
  import opened RepositoryService

  /** The background task `create_repository` schedules, with the record it updates. */
  datatype Job =
    | GitJob(sourceUrl: string, id: string, repository: Repository)
    | ZipJob(filePath: string, id: string, repository: Repository)

  /** `os.path.join(settings.TEMP_DIR, f"{repository_id}.zip")`. */
  function ArchivePath(id: string): (r: string)
    ensures r == "temp/" + id + ".zip" && EndsWith(r, ".zip")
  {
    var r := "temp/" + id + ".zip";
    assert r[|r| - 4..] == ".zip";
    r
  }

  /** The HTTPException(400) `create_repository` raises for a request it cannot
      serve, with its detail; None when the request is accepted. */
  function Rejection(source: RepositorySource, sourceUrl: Option<string>, uploaded: bool): (r: Option<string>)
    ensures r.None? <==> ((source == Github || source == Git) && Truthy(sourceUrl)) || (source == Zip && uploaded)
    ensures (source == Github || source == Git) && !Truthy(sourceUrl) ==>
              r == Some("Source URL is required for GitHub/Git repositories")
    ensures source == Zip && !uploaded ==> r == Some("File upload is required for ZIP repositories")
    ensures source == Local ==> r == Some("Unsupported repository source: " + source.Value())
  {
    if source == Github || source == Git then
      if !Truthy(sourceUrl) then Some("Source URL is required for GitHub/Git repositories") else None
    else if source == Zip then
      if !uploaded then Some("File upload is required for ZIP repositories") else None
    else Some("Unsupported repository source: " + source.Value())
  }

  /** As written: the 400 is raised inside the `try` whose `except Exception`
      turns it into a 500 carrying `str()` of the 400. */
  function CreateFailure(source: RepositorySource, sourceUrl: Option<string>, uploaded: bool): (r: Option<HttpError>)
    ensures r.None? <==> Rejection(source, sourceUrl, uploaded).None?
    ensures r.Some? ==> r.value == Internal(HttpFailure(400, Rejection(source, sourceUrl, uploaded).value))
  {
    match Rejection(source, sourceUrl, uploaded)
    case None => None
    case Some(detail) => Some(Internal(HttpFailure(400, detail)))
  }

  /** As intended: the 400 reaches the client with its own detail. */
  function CreateFailureIntended(source: RepositorySource, sourceUrl: Option<string>, uploaded: bool): (r: Option<HttpError>)
    ensures r.None? <==> Rejection(source, sourceUrl, uploaded).None?
    ensures r.Some? ==> r.value == HttpError(400, Literal(Rejection(source, sourceUrl, uploaded).value))
  {
    match Rejection(source, sourceUrl, uploaded)
    case None => None
    case Some(detail) => Some(HttpError(400, Literal(detail)))
  }

  /** A GitHub request without a URL gets a 500, not the 400 the code raises. */
  lemma MissingUrlAnswers500()
    ensures CreateFailure(Github, None, false) ==
              Some(HttpError(500, StrOf(HttpFailure(400, "Source URL is required for GitHub/Git repositories"))))
    ensures CreateFailureIntended(Github, None, false) ==
              Some(HttpError(400, Literal("Source URL is required for GitHub/Git repositories")))
  {
  }

  /** With the rewrapping removed every rejected request is a client error and
      every accepted one is not rejected. */
  lemma IntendedRejectionsAreClientErrors(source: RepositorySource, sourceUrl: Option<string>, uploaded: bool)
    ensures CreateFailureIntended(source, sourceUrl, uploaded).Some? ==>
              CreateFailureIntended(source, sourceUrl, uploaded).value.status == 400
    ensures CreateFailureIntended(source, sourceUrl, uploaded).None? <==>
              CreateFailure(source, sourceUrl, uploaded).None?
  {
  }

  /** `create_repository`: a new record in state "processing" and a scheduled
      job, or the error. A ZIP upload is saved to the temporary directory first. */
  method CreateRepository(store: RepositoryStore, id: string, name: string, description: Option<string>,
                          source: RepositorySource, sourceUrl: Option<string>, uploaded: bool)
    returns (r: Result<Repository, HttpError>, job: Option<Job>)
    modifies store`temp
    ensures r.Err? <==> CreateFailure(source, sourceUrl, uploaded).Some?
    ensures r.Err? ==> r.error == CreateFailure(source, sourceUrl, uploaded).value && job.None?
    ensures r.Err? ==> store.temp == old(store.temp)
    ensures r.Ok? ==> fresh(r.value) && job.Some? && job.value.repository == r.value
    ensures r.Ok? ==> r.value.id == id && r.value.name == name && r.value.description == description
    ensures r.Ok? ==> r.value.source == source && r.value.sourceUrl == sourceUrl
    ensures r.Ok? ==> r.value.status == Processing && r.value.fileCount == 0 && r.value.languageStats == map[]
    ensures r.Ok? && source != Zip ==> job.value == GitJob(sourceUrl.value, id, r.value) && store.temp == old(store.temp)
    ensures r.Ok? && source == Zip ==> job.value == ZipJob(ArchivePath(id), id, r.value)
    ensures r.Ok? && source == Zip ==> store.temp == old(store.temp) + {ArchivePath(id)}
  {
    var repository := new Repository.WithStatus(id, name, description, source, sourceUrl, Processing);
    var failure := CreateFailure(source, sourceUrl, uploaded);
    if failure.Some? {
      return Err(failure.value), None;
    }
    if source == Github || source == Git {
      job := Some(GitJob(sourceUrl.value, id, repository));
    } else {
      var filePath := ArchivePath(id);
      store.temp := store.temp + {filePath};
      job := Some(ZipJob(filePath, id, repository));
    }
    r := Ok(repository);
  }

  /** `_process_git_repository`: on success the record is ready with the
      analysis; on any failure its status becomes "error"; nothing else changes. */
  method ProcessGitRepository(store: RepositoryStore, sourceUrl: string, id: string, repository: Repository,
                              cloned: Option<seq<FileRecord>>)
    modifies store`repos, repository`status, repository`fileCount, repository`languageStats
    ensures cloned.None? ==> repository.status == Error
    ensures cloned.None? ==> repository.fileCount == old(repository.fileCount)
    ensures cloned.None? ==> repository.languageStats == old(repository.languageStats)
    ensures cloned.None? ==> store.repos == WithDirectory(old(store.repos), id)
    ensures cloned.Some? ==> repository.status == Ready && repository.fileCount == |cloned.value|
    ensures cloned.Some? ==> repository.languageStats == LanguageStats(cloned.value)
    ensures cloned.Some? ==> store.repos == old(store.repos)[id := cloned.value]
  {
    var info := store.CloneGitRepository(sourceUrl, id, cloned);
    if info.Ok? {
      repository.status := Ready;
      repository.fileCount := info.value.fileCount;
      repository.languageStats := info.value.languageStats;
    } else {
      repository.status := Error;
    }
  }

  /** `_process_zip_repository`, the same for an uploaded archive. */
  method ProcessZipRepository(store: RepositoryStore, filePath: string, id: string, repository: Repository,
                              extracted: Option<seq<FileRecord>>)
    modifies store`repos, store`temp, repository`status, repository`fileCount, repository`languageStats
    ensures store.temp == old(store.temp) - {filePath}
    ensures repository.status == Ready <==> filePath in old(store.temp) && extracted.Some?
    ensures repository.status != Ready ==> repository.status == Error
    ensures repository.status == Error ==> repository.fileCount == old(repository.fileCount)
    ensures repository.status == Error ==> repository.languageStats == old(repository.languageStats)
    ensures repository.status == Error ==> store.repos == WithDirectory(old(store.repos), id)
    ensures repository.status == Ready ==> repository.fileCount == |extracted.value|
    ensures repository.status == Ready ==> repository.languageStats == LanguageStats(extracted.value)
    ensures repository.status == Ready ==> store.repos == old(store.repos)[id := extracted.value]
  {
    var info := store.UploadZipRepository(filePath, id, extracted);
    if info.Ok? {
      repository.status := Ready;
      repository.fileCount := info.value.fileCount;
      repository.languageStats := info.value.languageStats;
    } else {
      repository.status := Error;
    }
  }

  /** `list_repositories`: there is no persistent storage, so the list is always empty. */
  function ListRepositories(store: RepositoryStore): (r: seq<Repository>)
    ensures |r| == 0
  {
    []
  }

  /** `get_repository`: 404 when the directory is missing, otherwise a
      placeholder record that ignores what the store knows. */
  method GetRepository(store: RepositoryStore, id: string) returns (r: Result<Repository, HttpError>)
    ensures r.Err? <==> id !in store.repos
    ensures r.Err? ==> r.error == HttpError(404, Literal("Repository not found"))
    ensures r.Ok? ==> fresh(r.value) && r.value.id == id && r.value.name == "Repository"
    ensures r.Ok? ==> r.value.source == Github && r.value.status == Ready && r.value.description.None?
    ensures r.Ok? ==> r.value.sourceUrl.None? && r.value.fileCount == 0 && r.value.languageStats == map[]
  {
    if id !in store.repos {
      return Err(HttpError(404, Literal("Repository not found")));
    }
    var repository := new Repository.WithStatus(id, "Repository", None, Github, None, Ready);
    r := Ok(repository);
  }

  /** The `except` clauses of the files endpoint. */
  function FilesError(f: Failure): (r: HttpError)
    ensures f.FileMissing? ==> r == HttpError(404, Literal("Repository not found"))
    ensures !f.FileMissing? ==> r == Internal(f)
  {
    if f.FileMissing? then HttpError(404, Literal("Repository not found")) else Internal(f)
  }

  /** `get_repository_files` endpoint: 404 exactly when the repository is missing. */
  method GetRepositoryFiles(store: RepositoryStore, id: string, fileFilter: Option<string>)
    returns (r: Result<seq<FileEntry>, HttpError>)
    ensures id !in store.repos <==> r == Err(HttpError(404, Literal("Repository not found")))
    ensures id in store.repos ==> r == Ok(Listing(store.repos[id], fileFilter))
  {
    var files := store.GetRepositoryFiles(id, fileFilter);
    match files {
      case Ok(entries) => r := Ok(entries);
      case Err(f) => r := Err(FilesError(f));
    }
  }

  /** `get_file_content` endpoint: 404 exactly when nothing is at the joined
      path; reading a directory is a 500. */
  function GetFileContent(store: RepositoryStore, id: string, path: string): (r: Result<string, HttpError>)
    reads store
    ensures NodeAt(store.host, store.repos, FullPath(id, path)) == Missing <==>
              r == Err(HttpError(404, Literal("File not found")))
    ensures NodeAt(store.host, store.repos, FullPath(id, path)) == Directory ==> r == Err(Internal(IsADirectory))
    ensures NodeAt(store.host, store.repos, FullPath(id, path)).File? ==>
              r == Ok(NodeAt(store.host, store.repos, FullPath(id, path)).content)
  {
    match FileContent(store.host, store.repos, id, path)
    case Ok(content) => Ok(content)
    case Err(f) => Err(if f.FileMissing? then HttpError(404, Literal("File not found")) else Internal(f))
  }

  /** As written: the 404 for a missing repository is raised inside the `try`
      and leaves as a 500. */
  function DeleteOutcome(success: bool): (r: Result<string, HttpError>)
    ensures success <==> r.Ok?
    ensures r.Ok? ==> r.value == "Repository deleted successfully"
    ensures r.Err? ==> r.error == Internal(HttpFailure(404, "Repository not found"))
  {
    if success then Ok("Repository deleted successfully")
    else Err(Internal(HttpFailure(404, "Repository not found")))
  }

  /** As intended: a missing repository is a 404. */
  function DeleteOutcomeIntended(success: bool): (r: Result<string, HttpError>)
    ensures success <==> r.Ok?
    ensures r.Ok? ==> r.value == "Repository deleted successfully"
    ensures r.Err? ==> r.error == HttpError(404, Literal("Repository not found"))
  {
    if success then Ok("Repository deleted successfully")
    else Err(HttpError(404, Literal("Repository not found")))
  }

  /** Deleting a missing repository answers 500 where 404 is meant. */
  lemma DeleteMissingAnswers500()
    ensures DeleteOutcome(false).error.status == 500
    ensures DeleteOutcomeIntended(false).error.status == 404
    ensures DeleteOutcome(true) == DeleteOutcomeIntended(true)
  {
  }

  /** `delete_repository` endpoint. */
  method DeleteRepository(store: RepositoryStore, id: string) returns (r: Result<string, HttpError>)
    modifies store`repos
    ensures r == DeleteOutcome(id in old(store.repos))
    ensures store.repos == old(store.repos) - {id}
  {
    var success := store.DeleteRepository(id);
    r := DeleteOutcome(success);
  }
}
