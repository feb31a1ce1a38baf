/** The GitLab query layer: configuration from the environment, the client
    connection, project resolution, the jobs of a commit and the console log
    of a job. Every call into the python-gitlab client is a field of `Api`,
    a fixed answer per argument; the process environment is a map. */
module GitlabUtils {
  import opened Outcomes
  import opened Decimal

  /** The process environment (`os.environ`). */
  type Env = map<string, string>

  /** `gitlab.Gitlab(url, private_token=...)`: a client is fixed by its URL and token. */
  datatype Client = Client(url: string, privateToken: string)

  /** A project object returned by the client; only its identity matters here. */
  datatype Project = Project(ref: string)

  /** An entry of `project.pipelines.list(...)`. */
  datatype Pipeline = Pipeline(id: int)

  /** A job object as the client returns it; `finishedAt` is `None` when the
      object has no `finished_at` attribute. */
  datatype RemoteJob = RemoteJob(
    id: int, name: string, status: string, stage: string,
    createdAt: string, finishedAt: Option<string>)

  /** What each python-gitlab call answers. */
  datatype Api = Api(
    auth: Client -> Outcome,                                  // gl.auth()
    getProject: (Client, string) -> Result<Project>,          // gl.projects.get(id)
    searchProjects: (Client, string) -> Result<seq<Project>>, // gl.projects.list(search=id)
    listPipelines: (Project, string) -> Result<seq<Pipeline>>,// project.pipelines.list(sha=...)
    pipelineJobs: (Project, int) -> Result<seq<RemoteJob>>,   // project.pipelines.get(id).jobs.list()
    getJob: (Project, int) -> Result<RemoteJob>,              // project.jobs.get(job_id)
    trace: RemoteJob -> Result<string>)                       // job.trace()

  /** The record `get_jobs_by_commit` builds for each job. */
  datatype JobInfo = JobInfo(
    id: int, name: string, status: string, stage: string,
    createdAt: string, finishedAt: Option<string>,
    pipelineId: int, commitSha: string)

  // ---------------------------------------------------------------------------
  // Configuration

  const GitlabUrlVar := "GITLAB_URL"
  const GitlabProjectNameVar := "GITLAB_PROJECT_NAME"
  const GitlabApiKeyVar := "GITLAB_API_KEY"

  function MissingEnvMessage(key: string): (m: string)
    ensures key <= m
  {
    key + "環境変数が設定されていません。"
  }

  /** Reads a required variable: absent and empty both count as missing, and
      the error names the variable. */
  function RequireEnv(env: Env, key: string): (r: Result<string>)
    ensures r.Ok? <==> key in env && env[key] != ""
    ensures r.Ok? ==> r.value == env[key]
    ensures r.Raise? ==> r.exc.ValueError? && key <= r.exc.msg
  {
    if key in env && env[key] != "" then Ok(env[key])
    else Raise(ValueError(MissingEnvMessage(key)))
  }

  /** `get_gitlab_url` */
  function GetGitlabUrl(env: Env): (r: Result<string>)
    ensures r.Ok? <==> GitlabUrlVar in env && env[GitlabUrlVar] != ""
    ensures r.Ok? ==> r.value == env[GitlabUrlVar]
    ensures r.Raise? ==> r.exc == ValueError("GITLAB_URL環境変数が設定されていません。")
  {
    RequireEnv(env, GitlabUrlVar)
  }

  /** `get_gitlab_project_id` */
  function GetGitlabProjectId(env: Env): (r: Result<string>)
    ensures r.Ok? <==> GitlabProjectNameVar in env && env[GitlabProjectNameVar] != ""
    ensures r.Ok? ==> r.value == env[GitlabProjectNameVar]
    ensures r.Raise? ==> r.exc == ValueError("GITLAB_PROJECT_NAME環境変数が設定されていません。")
  {
    RequireEnv(env, GitlabProjectNameVar)
  }

  // ---------------------------------------------------------------------------
  // Connection

  const ConnectFailedPrefix := "GitLabへの接続に失敗しました: "

  /** Tries the candidate URLs in order and keeps the first client that
      authenticates; `lastError` is the failure of the previous candidate. */
  function ConnectAny(urls: seq<string>, token: string, auth: Client -> Outcome,
                      lastError: Option<Exception>): Result<Client>
    decreases |urls|
  {
    if |urls| == 0 then Raise(ValueError(ConnectFailedPrefix + StrOrNone(lastError)))
    else match auth(Client(urls[0], token))
      case Pass => Ok(Client(urls[0], token))
      case Fail(e) => ConnectAny(urls[1..], token, auth, Some(e))
  }

  /** The connection succeeds exactly when some candidate authenticates, and
      then yields the first such candidate; when every candidate fails, the
      error carries the text of the last failure. */
  lemma {:induction false} ConnectAnyFirst(urls: seq<string>, token: string,
                                          auth: Client -> Outcome, lastError: Option<Exception>)
    ensures var r := ConnectAny(urls, token, auth, lastError);
            r.Ok? ==> exists k :: 0 <= k < |urls| && r.value == Client(urls[k], token) &&
                        auth(Client(urls[k], token)).Pass? &&
                        forall j :: 0 <= j < k ==> auth(Client(urls[j], token)).Fail?
    ensures var r := ConnectAny(urls, token, auth, lastError);
            r.Raise? ==> (forall j :: 0 <= j < |urls| ==> auth(Client(urls[j], token)).Fail?) &&
                         r.exc == ValueError(ConnectFailedPrefix +
                           if |urls| == 0 then StrOrNone(lastError)
                           else Str(auth(Client(urls[|urls| - 1], token)).exc))
    decreases |urls|
  {
    if |urls| > 0 {
      var c := Client(urls[0], token);
      match auth(c)
      case Pass =>
        assert ConnectAny(urls, token, auth, lastError).value == Client(urls[0], token);
      case Fail(e) =>
        var rest := urls[1..];
        ConnectAnyFirst(rest, token, auth, Some(e));
        var r := ConnectAny(rest, token, auth, Some(e));
        assert forall j :: 1 <= j < |urls| ==> urls[j] == rest[j - 1];
        if r.Ok? {
          var k :| 0 <= k < |rest| && r.value == Client(rest[k], token) &&
                   auth(Client(rest[k], token)).Pass? &&
                   forall j :: 0 <= j < k ==> auth(Client(rest[j], token)).Fail?;
          assert urls[k + 1] == rest[k];
          assert forall j :: 0 <= j < k + 1 ==> auth(Client(urls[j], token)).Fail? by {
            forall j | 0 <= j < k + 1 ensures auth(Client(urls[j], token)).Fail? {
              if j > 0 { assert urls[j] == rest[j - 1]; }
            }
          }
        } else {
          forall j | 0 <= j < |urls| ensures auth(Client(urls[j], token)).Fail? {
            if j > 0 { assert urls[j] == rest[j - 1]; }
          }
          if |rest| > 0 {
            assert urls[|urls| - 1] == rest[|rest| - 1];
          }
        }
    }
  }

  /** The loop of `get_gitlab_client` over its candidate URLs, remembering the
      last error. */
  method ConnectFirst(urls: seq<string>, token: string, auth: Client -> Outcome)
    returns (r: Result<Client>)
    ensures r == ConnectAny(urls, token, auth, None)
  {
    var lastError: Option<Exception> := None;
    var i := 0;
    assert urls[i..] == urls;
    while i < |urls|
      invariant 0 <= i <= |urls|
      invariant ConnectAny(urls[i..], token, auth, lastError) == ConnectAny(urls, token, auth, None)
    {
      var gl := Client(urls[i], token);
      match auth(gl) {
        case Pass =>
          return Ok(gl);
        case Fail(e) =>
          lastError := Some(e);
      }
      assert urls[i..][1..] == urls[i + 1..];
      i := i + 1;
    }
    r := Raise(ValueError(ConnectFailedPrefix + StrOrNone(lastError)));
  }

  /** What `get_gitlab_client` returns or raises. The API key is checked
      before the URL, and the only candidate is the configured URL. */
  function GitlabClient(env: Env, api: Api): (r: Result<Client>)
    ensures GitlabApiKeyVar !in env || env[GitlabApiKeyVar] == "" ==>
              r == Raise(ValueError("GITLAB_API_KEY環境変数が設定されていません。"))
    ensures GitlabApiKeyVar in env && env[GitlabApiKeyVar] != "" && GetGitlabUrl(env).Raise? ==>
              r == Raise(GetGitlabUrl(env).exc)
    ensures GitlabApiKeyVar in env && env[GitlabApiKeyVar] != "" && GetGitlabUrl(env).Ok? ==>
              var c := Client(GetGitlabUrl(env).value, env[GitlabApiKeyVar]);
              match api.auth(c)
              case Pass => r == Ok(c)
              case Fail(e) => r == Raise(ValueError(ConnectFailedPrefix + Str(e)))
    ensures r.Raise? ==> r.exc.ValueError?
  {
    match RequireEnv(env, GitlabApiKeyVar)
    case Raise(e) => Raise(e)
    case Ok(key) =>
      match GetGitlabUrl(env)
      case Raise(e) => Raise(e)
      case Ok(url) =>
        ConnectAnyFirst([url], key, api.auth, None);
        ConnectAny([url], key, api.auth, None)
  }

  /** `get_gitlab_client` */
  method GetGitlabClient(env: Env, api: Api) returns (r: Result<Client>)
    ensures r == GitlabClient(env, api)
  {
    var key := RequireEnv(env, GitlabApiKeyVar);
    if key.Raise? {
      return Raise(key.exc);
    }
    var url := GetGitlabUrl(env);
    if url.Raise? {
      return Raise(url.exc);
    }
    var connectionUrls := [url.value];
    r := ConnectFirst(connectionUrls, key.value, api.auth);
  }

  // ---------------------------------------------------------------------------
  // Project resolution

  const ProjectFailedPrefix := "GitLabプロジェクトの取得に失敗しました: "

  function ProjectNotFoundMessage(projectId: string): string
  {
    "プロジェクト '" + projectId + "' が見つかりません。"
  }

  /** The two `except` clauses around `get_gitlab_project`: a `ValueError`
      passes unchanged, anything else becomes a `ValueError` that keeps the
      original text after a fixed prefix. */
  function WrapProjectError(e: Exception): (r: Exception)
    ensures r.ValueError?
    ensures e.ValueError? ==> r == e
    ensures !e.ValueError? ==> |r.msg| == |ProjectFailedPrefix| + |Str(e)| &&
                               r.msg[..|ProjectFailedPrefix|] == ProjectFailedPrefix &&
                               r.msg[|ProjectFailedPrefix|..] == Str(e)
  {
    if e.ValueError? then e else ValueError(ProjectFailedPrefix + Str(e))
  }

  /** The fallback to a search when the exact lookup answers a get-error. */
  function LookupProject(api: Api, gl: Client, projectId: string): Result<Project>
  {
    match api.getProject(gl, projectId)
    case Ok(p) => Ok(p)
    case Raise(e) =>
      if !e.GitlabGetError? then Raise(e)
      else match api.searchProjects(gl, projectId)
        case Raise(e2) => Raise(e2)
        case Ok(projects) =>
          if |projects| > 0 then Ok(projects[0])
          else Raise(ValueError(ProjectNotFoundMessage(projectId)))
  }

  /** `get_gitlab_project` */
  function GitlabProject(env: Env, api: Api): (r: Result<Project>)
    // whatever fails, the caller sees a ValueError
    ensures r.Raise? ==> r.exc.ValueError?
    // the client is obtained before the project name is read
    ensures GitlabClient(env, api).Raise? ==> r == Raise(GitlabClient(env, api).exc)
    ensures GitlabClient(env, api).Ok? && GetGitlabProjectId(env).Raise? ==>
              r == Raise(GetGitlabProjectId(env).exc)
    ensures GitlabClient(env, api).Ok? && GetGitlabProjectId(env).Ok? ==>
              var gl, pid := GitlabClient(env, api).value, GetGitlabProjectId(env).value;
              var exact := api.getProject(gl, pid);
              // a successful exact lookup is the answer
              (exact.Ok? ==> r == exact) &&
              // a failure other than a get-error is wrapped, never searched
              (exact.Raise? && !exact.exc.GitlabGetError? ==> r == Raise(WrapProjectError(exact.exc))) &&
              // after a get-error: first search hit, or "not found", or the wrapped search failure
              (exact.Raise? && exact.exc.GitlabGetError? ==>
                 match api.searchProjects(gl, pid)
                 case Ok(ps) => r == (if |ps| > 0 then Ok(ps[0])
                                      else Raise(ValueError(ProjectNotFoundMessage(pid))))
                 case Raise(e) => r == Raise(WrapProjectError(e)))
  {
    var attempt :=
      match GitlabClient(env, api)
      case Raise(e) => Raise(e)
      case Ok(gl) =>
        match GetGitlabProjectId(env)
        case Raise(e) => Raise(e)
        case Ok(pid) => LookupProject(api, gl, pid);
    match attempt
    case Ok(p) => Ok(p)
    case Raise(e) => Raise(WrapProjectError(e))
  }

  // ---------------------------------------------------------------------------
  // Jobs of a commit

  function JobsFailedMessage(commitSha: string, e: Exception): string
  {
    "コミット " + commitSha + " のジョブ取得に失敗しました: " + Str(e)
  }

  /** The record built for one job of one pipeline. */
  function ToJobInfo(job: RemoteJob, pipelineId: int, commitSha: string): JobInfo
  {
    JobInfo(job.id, job.name, job.status, job.stage, job.createdAt, job.finishedAt,
            pipelineId, commitSha)
  }

  /** The records of the jobs of one pipeline, in the order listed. */
  function TagJobs(jobs: seq<RemoteJob>, pipelineId: int, commitSha: string): (r: seq<JobInfo>)
    ensures |r| == |jobs|
    ensures forall k :: 0 <= k < |jobs| ==> r[k] == ToJobInfo(jobs[k], pipelineId, commitSha)
  {
    seq(|jobs|, k requires 0 <= k < |jobs| => ToJobInfo(jobs[k], pipelineId, commitSha))
  }

  /** The jobs listed for one pipeline. */
  datatype Batch = Batch(pipelineId: int, jobs: seq<RemoteJob>)

  /** The records of all batches, batch after batch. */
  function Flatten(batches: seq<Batch>, commitSha: string): seq<JobInfo>
    decreases |batches|
  {
    if |batches| == 0 then []
    else
      var last := batches[|batches| - 1];
      Flatten(batches[..|batches| - 1], commitSha) + TagJobs(last.jobs, last.pipelineId, commitSha)
  }

  /** Number of jobs over all batches. */
  function TotalJobs(batches: seq<Batch>): nat
    decreases |batches|
  {
    if |batches| == 0 then 0 else TotalJobs(batches[..|batches| - 1]) + |batches[|batches| - 1].jobs|
  }

  /** Lists the jobs of each pipeline in order; the first failing listing
      decides the outcome. */
  function FetchBatches(api: Api, project: Project, pipelines: seq<Pipeline>): (r: Result<seq<Batch>>)
    ensures r.Ok? <==> forall i :: 0 <= i < |pipelines| ==> api.pipelineJobs(project, pipelines[i].id).Ok?
    ensures r.Ok? ==> |r.value| == |pipelines|
    ensures r.Ok? ==> forall i :: 0 <= i < |pipelines| ==>
              r.value[i] == Batch(pipelines[i].id, api.pipelineJobs(project, pipelines[i].id).value)
    ensures r.Raise? ==> exists i :: 0 <= i < |pipelines| && api.pipelineJobs(project, pipelines[i].id) == Raise(r.exc)
    decreases |pipelines|
  {
    if |pipelines| == 0 then Ok([])
    else
      var n := |pipelines|;
      match FetchBatches(api, project, pipelines[..n - 1])
      case Raise(e) => Raise(e)
      case Ok(batches) =>
        match api.pipelineJobs(project, pipelines[n - 1].id)
        case Raise(e) => Raise(e)
        case Ok(jobs) => Ok(batches + [Batch(pipelines[n - 1].id, jobs)])
  }

  /** What `get_jobs_by_commit` returns or raises. */
  function JobsByCommit(env: Env, api: Api, commitSha: string): (r: Result<seq<JobInfo>>)
    // success exactly when the project, the pipeline list and every job listing succeed
    ensures r.Ok? <==>
              GitlabProject(env, api).Ok? &&
              var pipelines := api.listPipelines(GitlabProject(env, api).value, commitSha);
              pipelines.Ok? && FetchBatches(api, GitlabProject(env, api).value, pipelines.value).Ok?
    // then the records of all listed jobs, pipeline after pipeline
    ensures GitlabProject(env, api).Ok? ==>
              var project := GitlabProject(env, api).value;
              var pipelines := api.listPipelines(project, commitSha);
              pipelines.Ok? && FetchBatches(api, project, pipelines.value).Ok? ==>
                r == Ok(Flatten(FetchBatches(api, project, pipelines.value).value, commitSha))
    // no matching pipeline: the empty list, not an error
    ensures GitlabProject(env, api).Ok? && api.listPipelines(GitlabProject(env, api).value, commitSha) == Ok([]) ==>
              r == Ok([])
    // every failure is one ValueError naming the commit and the exception of the failing stage
    ensures GitlabProject(env, api).Raise? ==>
              r == Raise(ValueError(JobsFailedMessage(commitSha, GitlabProject(env, api).exc)))
    ensures GitlabProject(env, api).Ok? ==>
              var pipelines := api.listPipelines(GitlabProject(env, api).value, commitSha);
              pipelines.Raise? ==> r == Raise(ValueError(JobsFailedMessage(commitSha, pipelines.exc)))
    ensures GitlabProject(env, api).Ok? ==>
              var project := GitlabProject(env, api).value;
              var pipelines := api.listPipelines(project, commitSha);
              pipelines.Ok? && FetchBatches(api, project, pipelines.value).Raise? ==>
                r == Raise(ValueError(JobsFailedMessage(commitSha, FetchBatches(api, project, pipelines.value).exc)))
  {
    match GitlabProject(env, api)
    case Raise(e) => Raise(ValueError(JobsFailedMessage(commitSha, e)))
    case Ok(project) =>
      match api.listPipelines(project, commitSha)
      case Raise(e) => Raise(ValueError(JobsFailedMessage(commitSha, e)))
      case Ok(pipelines) =>
        if |pipelines| == 0 then Ok([])
        else match FetchBatches(api, project, pipelines)
          case Raise(e) => Raise(ValueError(JobsFailedMessage(commitSha, e)))
          case Ok(batches) => Ok(Flatten(batches, commitSha))
  }

  lemma {:induction false} FetchRaisePropagates(api: Api, project: Project, pipelines: seq<Pipeline>, i: nat)
    requires i <= |pipelines|
    requires FetchBatches(api, project, pipelines[..i]).Raise?
    ensures FetchBatches(api, project, pipelines) == FetchBatches(api, project, pipelines[..i])
    decreases |pipelines|
  {
    var n := |pipelines|;
    if i == n {
      assert pipelines[..i] == pipelines;
    } else {
      var init := pipelines[..n - 1];
      assert init[..i] == pipelines[..i];
      FetchRaisePropagates(api, project, init, i);
    }
  }

  /** `get_jobs_by_commit`: builds the list by appending, pipeline by
      pipeline and job by job. */
  method GetJobsByCommit(env: Env, api: Api, commitSha: string) returns (r: Result<seq<JobInfo>>)
    ensures r == JobsByCommit(env, api, commitSha)
  {
    var project: Project;
    match GitlabProject(env, api) {
      case Raise(e) =>
        return Raise(ValueError(JobsFailedMessage(commitSha, e)));
      case Ok(p) =>
        project := p;
    }
    var pipelines: seq<Pipeline>;
    match api.listPipelines(project, commitSha) {
      case Raise(e) =>
        return Raise(ValueError(JobsFailedMessage(commitSha, e)));
      case Ok(ps) =>
        pipelines := ps;
    }
    if |pipelines| == 0 {
      return Ok([]);
    }
    var jobs: seq<JobInfo> := [];
    ghost var batches: seq<Batch> := [];
    assert pipelines[..0] == [];
    for i := 0 to |pipelines|
      invariant FetchBatches(api, project, pipelines[..i]) == Ok(batches)
      invariant jobs == Flatten(batches, commitSha)
    {
      var pipeline := pipelines[i];
      assert pipelines[..i + 1][..i] == pipelines[..i];
      var pipelineJobs: seq<RemoteJob>;
      match api.pipelineJobs(project, pipeline.id) {
        case Raise(e) =>
          FetchRaisePropagates(api, project, pipelines, i + 1);
          return Raise(ValueError(JobsFailedMessage(commitSha, e)));
        case Ok(js) =>
          pipelineJobs := js;
      }
      for k := 0 to |pipelineJobs|
        invariant jobs == Flatten(batches, commitSha) + TagJobs(pipelineJobs[..k], pipeline.id, commitSha)
      {
        jobs := jobs + [ToJobInfo(pipelineJobs[k], pipeline.id, commitSha)];
      }
      assert pipelineJobs[..|pipelineJobs|] == pipelineJobs;
      ghost var before := batches;
      batches := batches + [Batch(pipeline.id, pipelineJobs)];
      assert batches[..|batches| - 1] == before;
    }
    assert pipelines[..|pipelines|] == pipelines;
    r := Ok(jobs);
  }

  /** The records come out in batch order and, within a batch, in job order,
      and there are as many records as jobs. */
  lemma {:induction false} FlattenLength(batches: seq<Batch>, commitSha: string)
    ensures |Flatten(batches, commitSha)| == TotalJobs(batches)
    decreases |batches|
  {
    if |batches| > 0 {
      FlattenLength(batches[..|batches| - 1], commitSha);
    }
  }

  /** Job `j` of batch `i` is the record right after the records of the
      batches before `i` and the first `j` jobs of batch `i`. */
  lemma {:induction false} FlattenAt(batches: seq<Batch>, commitSha: string, i: nat, j: nat)
    requires i < |batches| && j < |batches[i].jobs|
    ensures TotalJobs(batches[..i]) + j < |Flatten(batches, commitSha)|
    ensures Flatten(batches, commitSha)[TotalJobs(batches[..i]) + j] ==
            ToJobInfo(batches[i].jobs[j], batches[i].pipelineId, commitSha)
    decreases |batches|
  {
    var n := |batches|;
    var init := batches[..n - 1];
    FlattenLength(init, commitSha);
    if i == n - 1 {
      assert batches[..i] == init;
    } else {
      assert init[..i] == batches[..i];
      FlattenAt(init, commitSha, i, j);
    }
  }

  /** Every record comes from some job of some batch, tagged with that
      batch's pipeline id and the queried commit. */
  lemma {:induction false} FlattenOrigin(batches: seq<Batch>, commitSha: string, k: nat)
    requires k < |Flatten(batches, commitSha)|
    ensures exists i, j :: 0 <= i < |batches| && 0 <= j < |batches[i].jobs| &&
              Flatten(batches, commitSha)[k] == ToJobInfo(batches[i].jobs[j], batches[i].pipelineId, commitSha)
    decreases |batches|
  {
    var n := |batches|;
    var init := batches[..n - 1];
    var head := Flatten(init, commitSha);
    if k < |head| {
      FlattenOrigin(init, commitSha, k);
      var i, j :| 0 <= i < |init| && 0 <= j < |init[i].jobs| &&
                  head[k] == ToJobInfo(init[i].jobs[j], init[i].pipelineId, commitSha);
      assert batches[i] == init[i];
    } else {
      var j := k - |head|;
      assert Flatten(batches, commitSha)[k] == ToJobInfo(batches[n - 1].jobs[j], batches[n - 1].pipelineId, commitSha);
    }
  }

  /** A successful `get_jobs_by_commit`: the project and the pipelines of
      the commit were found, every pipeline's jobs were listed, and the
      result holds one record per listed job, each tagged with the queried
      commit and with the id of one of the commit's pipelines. */
  lemma JobsByCommitOk(env: Env, api: Api, commitSha: string)
    requires JobsByCommit(env, api, commitSha).Ok?
    ensures GitlabProject(env, api).Ok?
    ensures var project := GitlabProject(env, api).value;
            var pipelines := api.listPipelines(project, commitSha);
            var jobs := JobsByCommit(env, api, commitSha).value;
            pipelines.Ok? && FetchBatches(api, project, pipelines.value).Ok? &&
            var batches := FetchBatches(api, project, pipelines.value).value;
            jobs == Flatten(batches, commitSha) &&
            |jobs| == TotalJobs(batches) &&
            forall k :: 0 <= k < |jobs| ==>
              jobs[k].commitSha == commitSha &&
              exists i :: 0 <= i < |pipelines.value| && jobs[k].pipelineId == pipelines.value[i].id
  {
    var project := GitlabProject(env, api).value;
    var pipelines := api.listPipelines(project, commitSha).value;
    var batches := FetchBatches(api, project, pipelines).value;
    var jobs := JobsByCommit(env, api, commitSha).value;
    FlattenLength(batches, commitSha);
    forall k | 0 <= k < |jobs|
      ensures jobs[k].commitSha == commitSha
      ensures exists i :: 0 <= i < |pipelines| && jobs[k].pipelineId == pipelines[i].id
    {
      FlattenOrigin(batches, commitSha, k);
      var i, j :| 0 <= i < |batches| && 0 <= j < |batches[i].jobs| &&
                  jobs[k] == ToJobInfo(batches[i].jobs[j], batches[i].pipelineId, commitSha);
      assert jobs[k].pipelineId == pipelines[i].id;
    }
  }

  // ---------------------------------------------------------------------------
  // Console log of a job

  /** The text both job-log messages start with. */
  function JobPrefix(jobId: int): string
  {
    "ジョブID #" + IntToDecimal(jobId) + " "
  }

  function JobNotFoundMessage(jobId: int): string
  {
    JobPrefix(jobId) + "が見つかりません。"
  }

  function LogFailedMessage(jobId: int, e: Exception): string
  {
    JobPrefix(jobId) + "のログ取得に失敗しました: " + Str(e)
  }

  /** The two `except` clauses of `get_job_console_log`. */
  function WrapLogError(jobId: int, e: Exception): (r: Exception)
    ensures r.ValueError?
    ensures e.GitlabGetError? ==> r.msg == JobNotFoundMessage(jobId)
    ensures !e.GitlabGetError? ==> JobPrefix(jobId) <= r.msg && |Str(e)| <= |r.msg| &&
                                   r.msg[|r.msg| - |Str(e)|..] == Str(e)
  {
    if e.GitlabGetError? then ValueError(JobNotFoundMessage(jobId))
    else ValueError(LogFailedMessage(jobId, e))
  }

  /** What `get_job_console_log` returns or raises. */
  function JobConsoleLog(env: Env, api: Api, jobId: int): (r: Result<string>)
    ensures r.Raise? ==> r.exc.ValueError?
    // a project-resolution failure is wrapped with the job id, never reported as "not found"
    ensures GitlabProject(env, api).Raise? ==>
              r == Raise(ValueError(LogFailedMessage(jobId, GitlabProject(env, api).exc)))
    // a log is returned exactly when the project, the job and its trace were retrieved
    ensures r.Ok? <==> (GitlabProject(env, api).Ok? &&
                        var job := api.getJob(GitlabProject(env, api).value, jobId);
                        job.Ok? && api.trace(job.value).Ok?)
    // the trace is returned unchanged
    ensures r.Ok? ==> (GitlabProject(env, api).Ok? &&
                       var job := api.getJob(GitlabProject(env, api).value, jobId);
                       job.Ok? && api.trace(job.value) == r)
    // a failing job lookup or trace is mapped by the two except clauses
    ensures GitlabProject(env, api).Ok? ==>
              var job := api.getJob(GitlabProject(env, api).value, jobId);
              (job.Raise? ==> r == Raise(WrapLogError(jobId, job.exc))) &&
              (job.Ok? && api.trace(job.value).Raise? ==>
                 r == Raise(WrapLogError(jobId, api.trace(job.value).exc)))
  {
    match GitlabProject(env, api)
    case Raise(e) => Raise(WrapLogError(jobId, e))
    case Ok(project) =>
      match api.getJob(project, jobId)
      case Raise(e) => Raise(WrapLogError(jobId, e))
      case Ok(job) =>
        match api.trace(job)
        case Ok(trace) => Ok(trace)
        case Raise(e) => Raise(WrapLogError(jobId, e))
  }

  lemma NotFoundIsNotLogFailure(jobId: int, e: Exception)
    ensures JobNotFoundMessage(jobId) != LogFailedMessage(jobId, e)
  {
  }

  /** "Not found" is reported exactly when the project was resolved and the
      job lookup or its trace answered a get-error. */
  lemma JobNotFoundExactly(env: Env, api: Api, jobId: int)
    ensures JobConsoleLog(env, api, jobId) == Raise(ValueError(JobNotFoundMessage(jobId))) <==>
            GitlabProject(env, api).Ok? &&
            var job := api.getJob(GitlabProject(env, api).value, jobId);
            (job.Raise? && job.exc.GitlabGetError?) ||
            (job.Ok? && api.trace(job.value).Raise? && api.trace(job.value).exc.GitlabGetError?)
  {
  }
}
